/**
 * The three-step wizard session: the draft report, the catalog service list with
 * its checked flags, the current step, and the two busy flags around the notes
 * rewrite and the image export.
 *
 * The new values are computed by the pure functions below (object spreads,
 * `map` and `filter`); the class ReportSession holds the session state that the
 * event handlers replace step by step.
 */
module App {
  import opened Types
  import Catalog
  import Preview

  const FileNamePrefix := "洗护报告-"
  const FileNameSuffix := ".png"
  /** The name sent to the rewriting service for a pet without a name. */
  const RequestNameFallback := "小可爱"

  /** The draft a session starts with; the date comes from the clock. */
  /**
   * The empty draft a session starts from, dated with the given day. Its card
   * shows only defaults: the default pet word, dashes, the no-services line, no
   * photos and the default sentence, drawn with the first template.
   */
  function InitialReport(date: string): (r: GroomingReport)
    ensures r.pet == PetInfo("", "", "", "", Male) && r.groomerName == "" && r.date == date
    ensures r.services == [] && r.notes == "" && r.aiEnhancedNotes == None && r.photos == Photos(None, None)
    ensures r.templateId == Catalog.ReportTemplates[0].id
    ensures Preview.Render(r).name == Preview.DefaultName && Preview.Render(r).groomer == Preview.Dash
    ensures Preview.Render(r).services == Preview.Placeholder(Preview.NoServicesText)
    ensures Preview.Render(r).panels == [] && Preview.Render(r).feedback == Preview.DefaultFeedback
  {
    GroomingReport(
      PetInfo("", "", "", "", Male),
      [], "", None, date, "", Photos(None, None),
      Catalog.ReportTemplates[0].id)
  }

  /** `services.map(s => s.id === id ? { ...s, checked: !s.checked } : s)` */
  function ToggleChecked(services: seq<GroomingService>, id: string): (r: seq<GroomingService>)
    ensures |r| == |services|
    ensures forall i :: 0 <= i < |services| && services[i].id != id ==> r[i] == services[i]
    ensures forall i :: 0 <= i < |services| && services[i].id == id ==>
      r[i] == services[i].(checked := !services[i].checked)
  {
    if services == [] then []
    else
      var s := services[0];
      [if s.id == id then s.(checked := !s.checked) else s] + ToggleChecked(services[1..], id)
  }

  /** `services.filter(s => s.checked).map(s => s.name)`: the checked names, in list order. */
  function CheckedNames(services: seq<GroomingService>): (names: seq<string>)
    ensures |names| <= |services|
    ensures forall n :: n in names ==> n in Catalog.ServiceNames(services)
  {
    if services == [] then []
    else
      var rest := CheckedNames(services[1..]);
      assert Catalog.ServiceNames(services) == [services[0].name] + Catalog.ServiceNames(services[1..]);
      if services[0].checked then [services[0].name] + rest else rest
  }

  /** `a` is `b` with some entries left out, the rest kept in their order. */
  predicate IsSubsequence(a: seq<string>, b: seq<string>)
    decreases |b|
  {
    if a == [] then true
    else if b == [] then false
    else (a[0] == b[0] && IsSubsequence(a[1..], b[1..])) || IsSubsequence(a, b[1..])
  }

  /** Same catalog entries in the same order; only the checked flags may differ. */
  predicate SameEntries(a: seq<GroomingService>, b: seq<GroomingService>) {
    |a| == |b| && forall i :: 0 <= i < |a| ==> a[i].id == b[i].id && a[i].name == b[i].name
  }

  /** `REPORT_TEMPLATES.find(t => t.id === templateId) || REPORT_TEMPLATES[0]` */
  function CurrentTemplate(templateId: string): (t: ReportTemplate)
    ensures t in Catalog.ReportTemplates
    ensures templateId in Catalog.TemplateIds(Catalog.ReportTemplates) ==> t.id == templateId
    ensures templateId !in Catalog.TemplateIds(Catalog.ReportTemplates) ==> t == Catalog.ReportTemplates[0]
  {
    match Catalog.FindById(Catalog.ReportTemplates, templateId)
    case Some(t) => t
    case None => Catalog.ReportTemplates[0]
  }

  /** The download name: the prefix, the pet's name or the default pet word, `.png`. */
  function ExportFileName(report: GroomingReport): (f: string)
    ensures |f| > |FileNamePrefix| + |FileNameSuffix|
    ensures f[..|FileNamePrefix|] == FileNamePrefix
    ensures f[|f| - |FileNameSuffix|..] == FileNameSuffix
    ensures f[|FileNamePrefix|..|f| - |FileNameSuffix|] == Preview.DisplayName(report.pet)
  {
    var name := OrElse(report.pet.name, Preview.DefaultName);
    var f := FileNamePrefix + name + FileNameSuffix;
    assert f[..|FileNamePrefix|] == FileNamePrefix;
    assert f[|FileNamePrefix|..|f| - |FileNameSuffix|] == name;
    f
  }

  /**
   * The request the rewrite button sends: nothing while the notes are empty,
   * otherwise the raw notes and the pet's name (or the fallback name).
   */
  function EnhanceRequest(report: GroomingReport): (req: Option<(string, string)>)
    ensures req.None? <==> report.notes == ""
    ensures req.Some? ==> req.value.0 == report.notes && req.value.1 != ""
    ensures req.Some? && report.pet.name != "" ==> req.value.1 == report.pet.name
    ensures req.Some? && report.pet.name == "" ==> req.value.1 == RequestNameFallback
  {
    if report.notes == "" then None else Some((report.notes, OrElse(report.pet.name, RequestNameFallback)))
  }

  /**
   * A new session has no services, no rewritten notes, no photos and the first
   * catalog template, `modern-blue`.
   */
  lemma InitialReportDefaults(date: string)
    ensures InitialReport(date).templateId == "modern-blue" == Catalog.ReportTemplates[0].id
    ensures CurrentTemplate(InitialReport(date).templateId) == Catalog.ReportTemplates[0]
    ensures InitialReport(date).services == [] && InitialReport(date).aiEnhancedNotes == None
    ensures !Present(InitialReport(date).photos.before) && !Present(InitialReport(date).photos.after)
    ensures InitialReport(date).date == date
  {
    CurrentTemplateOfCatalogId(0);
  }

  /** Flipping the same service twice gives back the original list. */
  lemma {:induction false} ToggleCheckedTwice(services: seq<GroomingService>, id: string)
    ensures ToggleChecked(ToggleChecked(services, id), id) == services
  {
    if services != [] {
      ToggleCheckedTwice(services[1..], id);
      assert ToggleChecked(services, id)[1..] == ToggleChecked(services[1..], id);
    }
  }

  /** Toggling keeps every id and name in place: only checked flags change. */
  lemma ToggleCheckedKeepsEntries(services: seq<GroomingService>, id: string)
    ensures SameEntries(ToggleChecked(services, id), services)
  {
  }

  /** A name is listed exactly when some service with that name is checked. */
  lemma {:induction false} CheckedNamesMembership(services: seq<GroomingService>, n: string)
    ensures n in CheckedNames(services) <==> exists i :: 0 <= i < |services| && services[i].checked && services[i].name == n
  {
    if services != [] {
      CheckedNamesMembership(services[1..], n);
      if exists i :: 0 <= i < |services| && services[i].checked && services[i].name == n {
        var i :| 0 <= i < |services| && services[i].checked && services[i].name == n;
        if i > 0 {
          assert services[1..][i - 1] == services[i];
        }
      }
      if exists i :: 0 <= i < |services[1..]| && services[1..][i].checked && services[1..][i].name == n {
        var i :| 0 <= i < |services[1..]| && services[1..][i].checked && services[1..][i].name == n;
        assert services[i + 1] == services[1..][i];
      }
    }
  }

  /** A checked entry's name is listed. */
  lemma CheckedEntryListed(services: seq<GroomingService>, i: nat)
    requires i < |services| && services[i].checked
    ensures services[i].name in CheckedNames(services)
  {
    CheckedNamesMembership(services, services[i].name);
  }

  /** A listed name comes from a checked entry; the lemma returns its index. */
  lemma ListedNameEntry(services: seq<GroomingService>, n: string) returns (i: nat)
    requires n in CheckedNames(services)
    ensures i < |services| && services[i].checked && services[i].name == n
  {
    CheckedNamesMembership(services, n);
    i :| 0 <= i < |services| && services[i].checked && services[i].name == n;
  }

  /** The derived names keep the list's order: they are a subsequence of all its names. */
  lemma {:induction false} CheckedNamesInListOrder(services: seq<GroomingService>)
    ensures IsSubsequence(CheckedNames(services), Catalog.ServiceNames(services))
  {
    if services != [] {
      var names := Catalog.ServiceNames(services);
      var rest := CheckedNames(services[1..]);
      CheckedNamesInListOrder(services[1..]);
      assert names[1..] == Catalog.ServiceNames(services[1..]);
      if services[0].checked {
        assert CheckedNames(services) == [names[0]] + rest;
        assert ([names[0]] + rest)[1..] == rest;
      } else if rest != [] {
        assert IsSubsequence(rest, names[1..]);
      }
    }
  }

  /** With distinct catalog names, the derived name list holds no duplicates. */
  lemma {:induction false} CheckedNamesDistinct(services: seq<GroomingService>)
    requires Catalog.DistinctEntries(services)
    ensures NoDuplicates(CheckedNames(services))
  {
    if services != [] {
      var tail := services[1..];
      assert Catalog.DistinctEntries(tail) by {
        forall a, b | 0 <= a < b < |tail| ensures tail[a].id != tail[b].id && tail[a].name != tail[b].name {
          assert tail[a] == services[a + 1] && tail[b] == services[b + 1];
        }
      }
      CheckedNamesDistinct(tail);
      if services[0].checked {
        var rest := CheckedNames(tail);
        assert services[0].name !in rest;
        forall i, j | 0 <= i < j < |rest| + 1
          ensures ([services[0].name] + rest)[i] != ([services[0].name] + rest)[j]
        {
          if i > 0 {
            assert ([services[0].name] + rest)[i] == rest[i - 1];
          }
          assert ([services[0].name] + rest)[j] == rest[j - 1];
        }
      }
    }
  }

  /** Starting state of the session: nothing checked, an empty name list. */
  lemma InitialServicesUnchecked()
    ensures CheckedNames(Catalog.DefaultServices) == []
  {
  }

  /** The template lookup never falls back for an id taken from the catalog. */
  lemma CurrentTemplateOfCatalogId(k: nat)
    requires k < |Catalog.ReportTemplates|
    ensures CurrentTemplate(Catalog.ReportTemplates[k].id) == Catalog.ReportTemplates[k]
  {
    Catalog.FindCatalogTemplate(k);
  }

  /** A non-empty rewrite becomes the feedback text the card shows. */
  lemma RewriteIsShown(report: GroomingReport, reply: string)
    requires reply != ""
    ensures Preview.Render(report.(aiEnhancedNotes := Some(reply))).feedback == reply
    ensures report.(aiEnhancedNotes := Some(reply)).notes == report.notes
  {
  }

  /**
   * A session that names the pet "Mochi", writes "did great", adds no photos and
   * keeps the default template exports a file named after Mochi whose card
   * shows the notes verbatim.
   */
  lemma MochiScenario(date: string)
    ensures var r := InitialReport(date).(pet := SetPetField(InitialReport(date).pet, Name, "Mochi"), notes := "did great");
      && CurrentTemplate(r.templateId).id == "modern-blue"
      && ExportFileName(r) == "洗护报告-Mochi.png"
      && Preview.Render(r).feedback == "did great"
      && Preview.Render(r).panels == []
  {
    var r := InitialReport(date).(pet := SetPetField(InitialReport(date).pet, Name, "Mochi"), notes := "did great");
    InitialReportDefaults(date);
    assert r.pet.name == "Mochi";
    assert ExportFileName(r) == FileNamePrefix + "Mochi" + FileNameSuffix;
    assert Preview.Feedback(r, Preview.DefaultFeedback) == "did great";
  }

  class ReportSession {
    var activeStep: int
    var isEnhancing: bool
    var isGenerating: bool
    var previewImage: Option<string>
    /** The download name taken when the running export was started. */
    var pendingExport: Option<string>
    var report: GroomingReport
    var services: seq<GroomingService>

    /**
     * The step is one of the three; the service list is the catalog with some
     * flags set; the report's names are exactly the checked ones; the template
     * id is a catalog id.
     */
    ghost predicate Valid()
      reads this
    {
      && 1 <= activeStep <= 3
      && (isGenerating <==> pendingExport.Some?)
      && SameEntries(services, Catalog.DefaultServices)
      && report.services == CheckedNames(services)
      && Catalog.IsTemplateId(report.templateId)
    }

    /** The template the card is drawn with. */
    function Template(): (t: ReportTemplate)
      reads this
      requires Valid()
      ensures t in Catalog.ReportTemplates && t.id == report.templateId
    {
      CurrentTemplate(report.templateId)
    }

    constructor (date: string)
      ensures Valid()
      ensures activeStep == 1 && !isEnhancing && !isGenerating && previewImage == None && pendingExport == None
      ensures report == InitialReport(date) && services == Catalog.DefaultServices
    {
      activeStep := 1;
      isEnhancing := false;
      isGenerating := false;
      previewImage := None;
      pendingExport := None;
      report := InitialReport(date);
      services := Catalog.DefaultServices;
      InitialServicesUnchecked();
      Catalog.TemplateCatalogShape();
    }

    /** Edit one pet field; nothing else in the report changes. */
    method HandlePetInfoChange(field: PetField, value: string)
      requires Valid()
      modifies this`report
      ensures Valid()
      ensures report == old(report).(pet := SetPetField(old(report).pet, field, value))
    {
      report := report.(pet := SetPetField(report.pet, field, value));
    }

    method SetGroomerName(value: string)
      requires Valid()
      modifies this`report
      ensures Valid()
      ensures report == old(report).(groomerName := value)
    {
      report := report.(groomerName := value);
    }

    method SetNotes(value: string)
      requires Valid()
      modifies this`report
      ensures Valid()
      ensures report == old(report).(notes := value)
    {
      report := report.(notes := value);
    }

    /** Flip one service and rebuild the report's name list from the flags. */
    method ToggleService(id: string)
      requires Valid()
      modifies this`services, this`report
      ensures Valid()
      ensures services == ToggleChecked(old(services), id)
      ensures report == old(report).(services := CheckedNames(services))
    {
      var updated := ToggleChecked(services, id);
      ToggleCheckedKeepsEntries(services, id);
      services := updated;
      report := report.(services := CheckedNames(updated));
    }

    /** A photo arrives for one role; it replaces that slot and only that slot. */
    method UploadPhoto(role: PhotoRole, img: string)
      requires Valid()
      modifies this`report
      ensures Valid()
      ensures report == UploadOnto(old(report), role, img)
    {
      report := UploadOnto(report, role, img);
    }

    /** Choose one of the catalog templates; the card is then drawn with it. */
    method SelectTemplate(t: ReportTemplate)
      requires Valid()
      requires t in Catalog.ReportTemplates
      modifies this`report
      ensures Valid()
      ensures report == old(report).(templateId := t.id)
      ensures Template() == t
    {
      var k :| 0 <= k < |Catalog.ReportTemplates| && Catalog.ReportTemplates[k] == t;
      CurrentTemplateOfCatalogId(k);
      report := report.(templateId := t.id);
    }

    /** The rewrite button: it starts a request only for non-empty notes and when idle. */
    method BeginEnhance() returns (request: Option<(string, string)>)
      requires Valid()
      modifies this`isEnhancing
      ensures Valid()
      ensures request == (if old(isEnhancing) then None else EnhanceRequest(report))
      ensures isEnhancing == (old(isEnhancing) || request.Some?)
    {
      if isEnhancing {
        return None;
      }
      request := EnhanceRequest(report);
      if request.Some? {
        isEnhancing := true;
      }
    }

    /** The service reply arrives: it becomes the rewritten notes; the raw notes stay. */
    method CompleteEnhance(reply: string)
      requires Valid()
      requires isEnhancing
      modifies this`report, this`isEnhancing
      ensures Valid()
      ensures report == old(report).(aiEnhancedNotes := Some(reply))
      ensures !isEnhancing
    {
      report := report.(aiEnhancedNotes := Some(reply));
      isEnhancing := false;
    }

    /** The back button, shown only above step 1. */
    method Back()
      requires Valid()
      modifies this`activeStep
      ensures Valid()
      ensures activeStep == if old(activeStep) > 1 then old(activeStep) - 1 else old(activeStep)
    {
      if activeStep > 1 {
        activeStep := activeStep - 1;
      }
    }

    /**
     * The primary button, disabled while an export runs: "next" below step 3,
     * "export" at step 3. Starting an export yields the download name, taken
     * from the report as it is at the click.
     */
    method PressPrimary() returns (exportName: Option<string>)
      requires Valid()
      modifies this`activeStep, this`isGenerating, this`pendingExport
      ensures Valid()
      ensures old(isGenerating) ==>
        activeStep == old(activeStep) && isGenerating && pendingExport == old(pendingExport) && exportName == None
      ensures !old(isGenerating) && old(activeStep) < 3 ==>
        activeStep == old(activeStep) + 1 && !isGenerating && pendingExport == None && exportName == None
      ensures !old(isGenerating) && old(activeStep) == 3 ==>
        activeStep == 3 && isGenerating && exportName == Some(ExportFileName(report)) && pendingExport == exportName
    {
      exportName := None;
      if isGenerating {
        return;
      }
      if activeStep < 3 {
        activeStep := activeStep + 1;
      } else {
        isGenerating := true;
        exportName := Some(ExportFileName(report));
        pendingExport := exportName;
      }
    }

    /**
     * The export settles. On success the image is kept for the preview overlay
     * and a download link is produced under the name taken at the click, even
     * if the pet's name was edited since; on failure nothing else changes.
     * Either way the busy flag is cleared.
     */
    method FinishExport(outcome: ExportOutcome) returns (link: Option<(string, string)>)
      requires Valid()
      requires isGenerating
      modifies this`isGenerating, this`previewImage, this`pendingExport
      ensures Valid()
      ensures !isGenerating && pendingExport == None
      ensures outcome.Rendered? ==>
        previewImage == Some(outcome.dataUrl) && link == Some((old(pendingExport).value, outcome.dataUrl))
      ensures outcome.Failed? ==> previewImage == old(previewImage) && link == None
    {
      link := None;
      match outcome {
        case Rendered(dataUrl) =>
          previewImage := Some(dataUrl);
          link := Some((pendingExport.value, dataUrl));
        case Failed =>
      }
      isGenerating := false;
      pendingExport := None;
    }

    /** Close the preview overlay. */
    method ClosePreview()
      requires Valid()
      modifies this`previewImage
      ensures Valid()
      ensures previewImage == None
    {
      previewImage := None;
    }
  }

  /** Toggling a service twice in a session gives back both the flags and the names. */
  method ToggleTwiceRestores(session: ReportSession, id: string)
    requires session.Valid()
    modifies session`services, session`report
    ensures session.Valid()
    ensures session.services == old(session.services) && session.report == old(session.report)
  {
    session.ToggleService(id);
    session.ToggleService(id);
    ToggleCheckedTwice(old(session.services), id);
  }
}
