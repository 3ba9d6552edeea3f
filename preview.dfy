/**
 * The report card as text: what the preview component shows for a report.
 * Each displayed value is a fallback chain over the draft's fields; the
 * template only supplies colours, which this model does not carry.
 */
module Preview {
  import opened Types

  const Title := "洗护服务报告"
  const Subtitle := "Pet Grooming Daily Report"
  const DefaultName := "宝贝"
  const Dash := "-"
  const WeightUnit := "kg"
  const NoServicesText := "无选定服务"
  const BeforeCaption := "BEFORE / 洗护前"
  const AfterCaption := "AFTER / 洗护后"
  const DefaultFeedback := "宝贝今天表现得非常棒，期待下次再见！"
  const Footer := "Professional Pet Grooming Service"

  /** Either one chip per selected service, or the placeholder line. */
  datatype ServicesView = Chips(chips: seq<string>) | Placeholder(text: string)

  datatype PhotoPanel = PhotoPanel(role: PhotoRole, caption: string, src: string)

  datatype PreviewText = PreviewText(
    title: string,
    subtitle: string,
    date: string,
    name: string,
    breed: string,
    weight: string,
    groomer: string,
    services: ServicesView,
    panels: seq<PhotoPanel>,
    feedback: string,
    footer: string
  )

  /** The pet's name, or the default pet word when it is empty. */
  function DisplayName(pet: PetInfo): (s: string)
    ensures s != ""
    ensures pet.name != "" ==> s == pet.name
    ensures pet.name == "" ==> s == DefaultName
  {
    OrElse(pet.name, DefaultName)
  }

  /** A text field shown as itself, or as a dash when empty. */
  function DashIfEmpty(value: string): (s: string)
    ensures s != ""
    ensures value != "" ==> s == value
    ensures value == "" ==> s == Dash
  {
    OrElse(value, Dash)
  }

  /** The weight with its unit appended, or a dash when no weight was entered. */
  function WeightText(weight: string): (s: string)
    ensures s != ""
    ensures weight != "" ==> |s| == |weight| + |WeightUnit| && s[..|weight|] == weight && s[|weight|..] == WeightUnit
    ensures weight == "" ==> s == Dash
  {
    if weight != "" then weight + WeightUnit else Dash
  }

  /** One chip per entry of the list, in list order; the placeholder for an empty list. */
  function ServicesShown(services: seq<string>): (v: ServicesView)
    ensures v.Chips? <==> |services| > 0
    ensures v.Chips? ==> |v.chips| == |services| && forall i :: 0 <= i < |services| ==> v.chips[i] == services[i]
    ensures v.Placeholder? ==> v.text == NoServicesText
  {
    if |services| > 0 then Chips(services) else Placeholder(NoServicesText)
  }

  function Panel(photos: Photos, role: PhotoRole, caption: string): seq<PhotoPanel> {
    var slot := PhotoAt(photos, role);
    if Present(slot) then [PhotoPanel(role, caption, slot.value)] else []
  }

  function CaptionFor(role: PhotoRole, beforeCaption: string, afterCaption: string): string {
    match role
    case Before => beforeCaption
    case After => afterCaption
  }

  /**
   * The photo panels under the given captions: one per role whose slot holds a
   * non-empty data URL, "before" ahead of "after".
   */
  function PhotoPanels(photos: Photos, beforeCaption: string, afterCaption: string): (panels: seq<PhotoPanel>)
    ensures |panels| == (if Present(photos.before) then 1 else 0) + (if Present(photos.after) then 1 else 0)
    ensures forall i :: 0 <= i < |panels| ==>
      var slot := PhotoAt(photos, panels[i].role);
      Present(slot) && panels[i].src == slot.value
      && panels[i].caption == CaptionFor(panels[i].role, beforeCaption, afterCaption)
    ensures forall i, j :: 0 <= i < j < |panels| ==> panels[i].role == Before && panels[j].role == After
  {
    Panel(photos, Before, beforeCaption) + Panel(photos, After, afterCaption)
  }

  /**
   * The feedback text: the rewritten notes when present, else the notes when
   * non-empty, else the given default sentence.
   */
  function Feedback(report: GroomingReport, default: string): (s: string)
    ensures Present(report.aiEnhancedNotes) ==> s == report.aiEnhancedNotes.value
    ensures !Present(report.aiEnhancedNotes) && report.notes != "" ==> s == report.notes
    ensures !Present(report.aiEnhancedNotes) && report.notes == "" ==> s == default
    ensures default != "" ==> s != ""
  {
    OptionOrElse(report.aiEnhancedNotes, OrElse(report.notes, default))
  }

  /** Everything the preview card shows for a report. */
  function Render(report: GroomingReport): (v: PreviewText)
    ensures v.date == report.date
    ensures v.name == DisplayName(report.pet) && v.breed == DashIfEmpty(report.pet.breed)
    ensures v.weight == WeightText(report.pet.weight) && v.groomer == DashIfEmpty(report.groomerName)
    ensures v.services == ServicesShown(report.services)
    ensures v.panels == PhotoPanels(report.photos, BeforeCaption, AfterCaption)
    ensures v.feedback == Feedback(report, DefaultFeedback)
  {
    PreviewText(
      Title, Subtitle, report.date,
      DisplayName(report.pet), DashIfEmpty(report.pet.breed), WeightText(report.pet.weight),
      DashIfEmpty(report.groomerName),
      ServicesShown(report.services),
      PhotoPanels(report.photos, BeforeCaption, AfterCaption),
      Feedback(report, DefaultFeedback),
      Footer)
  }

  /**
   * The card does not show the pet's age or gender or the template id: two
   * reports that agree on every shown field render to the same text.
   */
  lemma RenderReadsOnlyShownFields(a: GroomingReport, b: GroomingReport)
    requires a.pet.name == b.pet.name && a.pet.breed == b.pet.breed && a.pet.weight == b.pet.weight
    requires a.groomerName == b.groomerName && a.date == b.date && a.services == b.services
    requires a.photos == b.photos && a.notes == b.notes && a.aiEnhancedNotes == b.aiEnhancedNotes
    ensures Render(a) == Render(b)
  {
  }

  /** Once rewritten notes are present, editing the raw notes no longer changes the feedback. */
  lemma RewriteShadowsNotes(report: GroomingReport, notes: string)
    requires Present(report.aiEnhancedNotes)
    ensures Render(report.(notes := notes)).feedback == Render(report).feedback == report.aiEnhancedNotes.value
  {
  }
}
