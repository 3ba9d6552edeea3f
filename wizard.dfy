/**
 * The single-file revision of the wizard: the same draft, but the report's
 * service list is toggled by name membership (no separate flag list), the card
 * is a smaller inline preview, and the template lookup has no fallback.
 * It starts from the same initial draft as the App session.
 */
module Wizard {
  import opened Types
  import Catalog
  import Preview
  import App

  const InlineBeforeCaption := "BEFORE"
  const InlineAfterCaption := "AFTER"
  const InlineDefaultFeedback := "宝贝今天很听话！"

  /** `xs.filter(x => x !== name)` */
  function RemoveName(xs: seq<string>, name: string): (r: seq<string>)
    ensures |r| <= |xs|
    ensures forall y :: y in r <==> y in xs && y != name
    ensures name !in xs ==> r == xs
    ensures App.IsSubsequence(r, xs)
  {
    if xs == [] then []
    else
      var rest := RemoveName(xs[1..], name);
      if xs[0] == name then rest
      else
        assert ([xs[0]] + rest)[1..] == rest;
        [xs[0]] + rest
  }

  /** `xs.includes(name) ? xs.filter(x => x !== name) : [...xs, name]` */
  function ToggleMembership(xs: seq<string>, name: string): (r: seq<string>)
    ensures name in r <==> name !in xs
    ensures forall y :: y != name ==> (y in r <==> y in xs)
    ensures name !in xs ==> r == xs + [name]
    ensures name in xs ==> r == RemoveName(xs, name)
  {
    if name in xs then RemoveName(xs, name) else xs + [name]
  }

  /** Filtering a list without duplicates leaves a list without duplicates. */
  lemma {:induction false} RemoveNameKeepsDistinct(xs: seq<string>, name: string)
    requires NoDuplicates(xs)
    ensures NoDuplicates(RemoveName(xs, name))
  {
    if xs != [] {
      assert NoDuplicates(xs[1..]) by {
        forall i, j | 0 <= i < j < |xs| - 1 ensures xs[1..][i] != xs[1..][j] {
          assert xs[1..][i] == xs[i + 1] && xs[1..][j] == xs[j + 1];
        }
      }
      RemoveNameKeepsDistinct(xs[1..], name);
      if xs[0] != name {
        assert xs[0] !in xs[1..] by {
          forall j | 0 <= j < |xs| - 1 ensures xs[1..][j] != xs[0] {
            assert xs[1..][j] == xs[j + 1];
          }
        }
        assert xs[0] !in RemoveName(xs[1..], name);
      }
    }
  }

  /** The membership toggle never introduces a duplicate. */
  lemma ToggleMembershipKeepsDistinct(xs: seq<string>, name: string)
    requires NoDuplicates(xs)
    ensures NoDuplicates(ToggleMembership(xs, name))
  {
    if name in xs {
      RemoveNameKeepsDistinct(xs, name);
    }
  }

  /** Appending a name that was absent and then filtering it out gives back the list. */
  lemma {:induction false} RemoveAppended(xs: seq<string>, name: string)
    requires name !in xs
    ensures RemoveName(xs + [name], name) == xs
  {
    if xs == [] {
      assert [name][1..] == [];
    } else {
      assert (xs + [name])[1..] == xs[1..] + [name];
      RemoveAppended(xs[1..], name);
    }
  }

  /** Filtering out a name that occurs once removes exactly that one occurrence. */
  lemma {:induction false} RemoveUniqueMultiset(xs: seq<string>, name: string)
    requires NoDuplicates(xs) && name in xs
    ensures multiset(RemoveName(xs, name)) + multiset{name} == multiset(xs)
  {
    assert xs == [xs[0]] + xs[1..];
    assert NoDuplicates(xs[1..]) by {
      forall i, j | 0 <= i < j < |xs| - 1 ensures xs[1..][i] != xs[1..][j] {
        assert xs[1..][i] == xs[i + 1] && xs[1..][j] == xs[j + 1];
      }
    }
    if xs[0] == name {
      assert name !in xs[1..] by {
        forall j | 0 <= j < |xs| - 1 ensures xs[1..][j] != name {
          assert xs[1..][j] == xs[j + 1];
        }
      }
      assert RemoveName(xs[1..], name) == xs[1..];
    } else {
      RemoveUniqueMultiset(xs[1..], name);
    }
  }

  /**
   * Toggling the same name twice restores the list exactly when the name was
   * absent; when it was present the same names come back, the toggled one now
   * at the end.
   */
  lemma ToggleMembershipTwice(xs: seq<string>, name: string)
    requires NoDuplicates(xs)
    ensures name !in xs ==> ToggleMembership(ToggleMembership(xs, name), name) == xs
    ensures name in xs ==> ToggleMembership(ToggleMembership(xs, name), name) == RemoveName(xs, name) + [name]
    ensures multiset(ToggleMembership(ToggleMembership(xs, name), name)) == multiset(xs)
  {
    if name !in xs {
      RemoveAppended(xs, name);
    } else {
      RemoveUniqueMultiset(xs, name);
    }
  }

  /** Every entry of the list names a catalog service. */
  predicate CatalogNamesOnly(xs: seq<string>) {
    forall n :: n in xs ==> n in Catalog.ServiceNames(Catalog.DefaultServices)
  }

  /** Toggling a catalog service's name keeps a list of catalog names a list of catalog names. */
  lemma ToggleKeepsCatalogNames(xs: seq<string>, name: string)
    requires name in Catalog.ServiceNames(Catalog.DefaultServices)
    requires CatalogNamesOnly(xs)
    ensures CatalogNamesOnly(ToggleMembership(xs, name))
  {
  }

  /**
   * The App session's flag toggle and this revision's name toggle agree on which
   * services are selected: for catalog-shaped lists with distinct ids and names,
   * flipping service k and rebuilding the names has the same members as toggling
   * service k's name in the old name list.
   */
  lemma FlagToggleAgreesWithMembershipToggle(services: seq<GroomingService>, k: nat, n: string)
    requires k < |services|
    requires Catalog.DistinctEntries(services)
    ensures n in App.CheckedNames(App.ToggleChecked(services, services[k].id))
        <==> n in ToggleMembership(App.CheckedNames(services), services[k].name)
  {
    var toggled := App.ToggleChecked(services, services[k].id);
    if n == services[k].name {
      assert Catalog.DistinctEntries(toggled);
      NameListedIffChecked(services, k);
      NameListedIffChecked(toggled, k);
    } else {
      OtherNamesUnaffected(services, k, n);
    }
  }

  /** With distinct names, entry k's name is listed exactly when entry k is checked. */
  lemma NameListedIffChecked(services: seq<GroomingService>, k: nat)
    requires k < |services| && Catalog.DistinctEntries(services)
    ensures services[k].name in App.CheckedNames(services) <==> services[k].checked
  {
    App.CheckedNamesMembership(services, services[k].name);
  }

  /** Flipping entry k does not change whether any other name is listed. */
  lemma OtherNamesUnaffected(services: seq<GroomingService>, k: nat, n: string)
    requires k < |services| && Catalog.DistinctEntries(services) && n != services[k].name
    ensures n in App.CheckedNames(App.ToggleChecked(services, services[k].id)) <==> n in App.CheckedNames(services)
  {
    var toggled := App.ToggleChecked(services, services[k].id);
    if n in App.CheckedNames(toggled) {
      var i := App.ListedNameEntry(toggled, n);
      EntryUntouched(services, k, i);
      App.CheckedEntryListed(services, i);
    }
    if n in App.CheckedNames(services) {
      var i := App.ListedNameEntry(services, n);
      EntryUntouched(services, k, i);
      App.CheckedEntryListed(toggled, i);
    }
  }

  /**
   * With distinct entries, an entry named differently from entry k has another
   * id, so flipping entry k leaves it as it was.
   */
  lemma EntryUntouched(services: seq<GroomingService>, k: nat, i: nat)
    requires k < |services| && i < |services| && Catalog.DistinctEntries(services)
    requires services[i].name != services[k].name
    ensures App.ToggleChecked(services, services[k].id)[i] == services[i]
  {
    if i < k {
      assert services[i].id != services[k].id;
    } else if k < i {
      assert services[k].id != services[i].id;
    }
  }

  /**
   * As written, both upload callbacks apply the upload to the draft of the
   * render in which the file was picked, not to the current draft. When a
   * "before" and an "after" photo are picked in the same render and load one
   * after the other, the second write is computed from that same snapshot and
   * drops the first photo, whereas applying it to the current draft keeps it.
   */
  lemma StaleUploadDropsFirstPhoto(snapshot: GroomingReport, a: string, b: string)
    requires snapshot.photos.before == None
    ensures var afterFirst := UploadOnto(snapshot, Before, a);
      var afterSecond := UploadOnto(snapshot, After, b);
      && afterFirst.photos.before == Some(a)
      && afterSecond.photos.before == None
      && afterSecond.photos.before != afterFirst.photos.before
      && UploadOnto(afterFirst, After, b).photos.before == Some(a)
  {
  }

  /**
   * Applied to the current draft, as the App session does, two uploads to
   * different roles keep both photos and commute, and every other field stays.
   */
  lemma UploadsOntoCurrentKeepBoth(report: GroomingReport, a: string, b: string)
    ensures var both := UploadOnto(UploadOnto(report, Before, a), After, b);
      && both == UploadOnto(UploadOnto(report, After, b), Before, a)
      && both.photos == Photos(Some(a), Some(b))
      && both.(photos := report.photos) == report
  {
  }

  /** `REPORT_TEMPLATES.find(x => x.id === templateId)`, with no fallback. */
  function PreviewTemplate(templateId: string): (t: Option<ReportTemplate>)
    ensures t.Some? <==> templateId in Catalog.TemplateIds(Catalog.ReportTemplates)
    ensures t.Some? ==> t.value in Catalog.ReportTemplates && t.value.id == templateId
  {
    Catalog.FindById(Catalog.ReportTemplates, templateId)
  }

  datatype InlineText = InlineText(
    date: string,
    name: string,
    groomer: string,
    panels: seq<Preview.PhotoPanel>,
    feedback: string
  )

  /** The inline card: date, name, groomer, the photos present, and the feedback line. */
  function InlinePreview(report: GroomingReport): (v: InlineText)
    ensures v.date == report.date
    ensures v.name != "" && (report.pet.name != "" ==> v.name == report.pet.name)
    ensures report.pet.name == "" ==> v.name == Preview.DefaultName
    ensures v.groomer == Preview.DashIfEmpty(report.groomerName)
    ensures v.panels == Preview.PhotoPanels(report.photos, InlineBeforeCaption, InlineAfterCaption)
    ensures v.feedback == Preview.Feedback(report, InlineDefaultFeedback)
  {
    InlineText(
      report.date,
      Preview.DisplayName(report.pet),
      Preview.DashIfEmpty(report.groomerName),
      Preview.PhotoPanels(report.photos, InlineBeforeCaption, InlineAfterCaption),
      Preview.Feedback(report, InlineDefaultFeedback))
  }

  /**
   * The inline card and the preview component show the same date, name,
   * groomer and photos in the same order; the feedback differs only when both
   * notes are empty, where each shows its own default sentence.
   */
  lemma {:induction false} InlineAgreesWithComponent(report: GroomingReport)
    ensures var inline := InlinePreview(report);
      var card := Preview.Render(report);
      && inline.date == card.date && inline.name == card.name && inline.groomer == card.groomer
      && |inline.panels| == |card.panels|
      && (forall i :: 0 <= i < |inline.panels| ==>
            inline.panels[i].role == card.panels[i].role && inline.panels[i].src == card.panels[i].src)
      && (inline.feedback == card.feedback <==> Present(report.aiEnhancedNotes) || report.notes != "")
  {
    var inline := InlinePreview(report);
    var card := Preview.Render(report);
    forall i | 0 <= i < |inline.panels|
      ensures inline.panels[i].role == card.panels[i].role && inline.panels[i].src == card.panels[i].src
    {
      if |inline.panels| == 2 {
        assert inline.panels[0].role == Before && inline.panels[1].role == After;
        assert card.panels[0].role == Before && card.panels[1].role == After;
      } else {
        assert inline.panels[i].role == card.panels[i].role by {
          if inline.panels[i].role == Before {
            assert Present(report.photos.before);
            assert !Present(report.photos.after);
          } else {
            assert Present(report.photos.after);
            assert !Present(report.photos.before);
          }
        }
      }
    }
    if !Present(report.aiEnhancedNotes) && report.notes == "" {
      assert inline.feedback == InlineDefaultFeedback && card.feedback == Preview.DefaultFeedback;
      assert |inline.feedback| != |card.feedback|;
    }
  }

  class Wizard {
    var step: int
    var report: GroomingReport
    var isGenerating: bool
    var previewImage: Option<string>

    /**
     * The step is one of the three; the selected names are distinct catalog
     * names; the template id is a catalog id, so the preview always finds its
     * template.
     */
    ghost predicate Valid()
      reads this
    {
      && 1 <= step <= 3
      && NoDuplicates(report.services)
      && CatalogNamesOnly(report.services)
      && Catalog.IsTemplateId(report.templateId)
    }

    /** The template the inline card is drawn with: always found. */
    function Template(): (t: ReportTemplate)
      reads this
      requires Valid()
      ensures PreviewTemplate(report.templateId) == Some(t)
    {
      PreviewTemplate(report.templateId).value
    }

    constructor (date: string)
      ensures Valid()
      ensures step == 1 && !isGenerating && previewImage == None
      ensures report == App.InitialReport(date)
    {
      step := 1;
      report := App.InitialReport(date);
      isGenerating := false;
      previewImage := None;
      Catalog.TemplateCatalogShape();
    }

    method SetName(value: string)
      requires Valid()
      modifies this`report
      ensures Valid()
      ensures report == old(report).(pet := old(report).pet.(name := value))
    {
      report := report.(pet := report.pet.(name := value));
    }

    method SetGroomerName(value: string)
      requires Valid()
      modifies this`report
      ensures Valid()
      ensures report == old(report).(groomerName := value)
    {
      report := report.(groomerName := value);
    }

    method SetNotes(value: string)
      requires Valid()
      modifies this`report
      ensures Valid()
      ensures report == old(report).(notes := value)
    {
      report := report.(notes := value);
    }

    /** A service button: its name joins the list if absent and leaves it if present. */
    method ToggleService(name: string)
      requires Valid()
      requires name in Catalog.ServiceNames(Catalog.DefaultServices)
      modifies this`report
      ensures Valid()
      ensures report == old(report).(services := ToggleMembership(old(report).services, name))
    {
      var next := ToggleMembership(report.services, name);
      ToggleMembershipKeepsDistinct(report.services, name);
      ToggleKeepsCatalogNames(report.services, name);
      report := report.(services := next);
    }

    /** A photo arrives for one role and is placed onto the current draft. */
    method UploadPhoto(role: PhotoRole, img: string)
      requires Valid()
      modifies this`report
      ensures Valid()
      ensures report == UploadOnto(old(report), role, img)
    {
      report := UploadOnto(report, role, img);
    }

    method SelectTemplate(t: ReportTemplate)
      requires Valid()
      requires t in Catalog.ReportTemplates
      modifies this`report
      ensures Valid()
      ensures report == old(report).(templateId := t.id)
      ensures Template() == t
    {
      var k :| 0 <= k < |Catalog.ReportTemplates| && Catalog.ReportTemplates[k] == t;
      Catalog.FindCatalogTemplate(k);
      report := report.(templateId := t.id);
    }

    method Back()
      requires Valid()
      modifies this`step
      ensures Valid()
      ensures step == if old(step) > 1 then old(step) - 1 else old(step)
    {
      if step > 1 {
        step := step - 1;
      }
    }

    /**
     * The primary button, never disabled: "next" below step 3, otherwise it
     * starts an export (a second one too while the first is still running).
     */
    method PressPrimary() returns (exporting: bool)
      requires Valid()
      modifies this`step, this`isGenerating
      ensures Valid()
      ensures exporting == (old(step) == 3)
      ensures !exporting ==> step == old(step) + 1 && isGenerating == old(isGenerating)
      ensures exporting ==> step == 3 && isGenerating
    {
      exporting := step == 3;
      if step < 3 {
        step := step + 1;
      } else {
        isGenerating := true;
      }
    }

    /** The export settles: the image is kept on success, and the busy flag clears either way. */
    method FinishDownload(outcome: ExportOutcome)
      requires Valid()
      modifies this`isGenerating, this`previewImage
      ensures Valid()
      ensures !isGenerating
      ensures outcome.Rendered? ==> previewImage == Some(outcome.dataUrl)
      ensures outcome.Failed? ==> previewImage == old(previewImage)
    {
      if outcome.Rendered? {
        previewImage := Some(outcome.dataUrl);
      }
      isGenerating := false;
    }

    method ClosePreview()
      requires Valid()
      modifies this`previewImage
      ensures Valid()
      ensures previewImage == None
    {
      previewImage := None;
    }
  }
}
