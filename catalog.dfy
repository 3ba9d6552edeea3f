/**
 * The fixed catalogs: the four report templates and the eight grooming services,
 * and the first-match lookup by id (`Array.prototype.find`) that both wizard
 * revisions use on the template list.
 */
module Catalog {
  import opened Types

  const ReportTemplates: seq<ReportTemplate> := [
    ReportTemplate("modern-blue", "极简商务蓝", "#2563eb", "#f0f9ff", "#1e293b", "#3b82f6", None),
    ReportTemplate("sweet-pink", "温馨宠物粉", "#db2777", "#fdf2f8", "#4c0519", "#ec4899", None),
    ReportTemplate("nature-green", "生机草本绿", "#059669", "#ecfdf5", "#064e3b", "#10b981", None),
    ReportTemplate("elegant-gold", "奢华典雅金", "#92400e", "#fffbeb", "#451a03", "#d97706", None)
  ]

  const DefaultServices: seq<GroomingService> := [
    GroomingService("1", "洗浴", false),
    GroomingService("2", "修剪造型", false),
    GroomingService("3", "剪指甲", false),
    GroomingService("4", "清理耳道", false),
    GroomingService("5", "挤肛门腺", false),
    GroomingService("6", "刷牙/牙粉", false),
    GroomingService("7", "去死毛", false),
    GroomingService("8", "SPA按摩", false)
  ]

  function TemplateIds(ts: seq<ReportTemplate>): (ids: seq<string>)
    ensures |ids| == |ts|
    ensures forall i :: 0 <= i < |ts| ==> ids[i] == ts[i].id
  {
    if ts == [] then [] else [ts[0].id] + TemplateIds(ts[1..])
  }

  function ServiceIds(ss: seq<GroomingService>): (ids: seq<string>)
    ensures |ids| == |ss|
    ensures forall i :: 0 <= i < |ss| ==> ids[i] == ss[i].id
  {
    if ss == [] then [] else [ss[0].id] + ServiceIds(ss[1..])
  }

  function ServiceNames(ss: seq<GroomingService>): (names: seq<string>)
    ensures |names| == |ss|
    ensures forall i :: 0 <= i < |ss| ==> names[i] == ss[i].name
  {
    if ss == [] then [] else [ss[0].name] + ServiceNames(ss[1..])
  }

  /** The id of one of the catalog templates. */
  predicate IsTemplateId(id: string) {
    id in TemplateIds(ReportTemplates)
  }

  /** `ts.find(t => t.id === id)`: the first template with that id, if any. */
  function FindById(ts: seq<ReportTemplate>, id: string): (r: Option<ReportTemplate>)
    ensures r.None? <==> forall j :: 0 <= j < |ts| ==> ts[j].id != id
    ensures r.Some? ==> r.value in ts && r.value.id == id
    ensures r.Some? && |ts| > 0 && ts[0].id == id ==> r.value == ts[0]
  {
    if ts == [] then None
    else if ts[0].id == id then Some(ts[0])
    else FindById(ts[1..], id)
  }

  /** The lookup returns the entry at the first index whose id matches. */
  lemma {:induction false} FindByIdIsFirstMatch(ts: seq<ReportTemplate>, id: string, k: nat)
    requires k < |ts| && ts[k].id == id
    requires forall j :: 0 <= j < k ==> ts[j].id != id
    ensures FindById(ts, id) == Some(ts[k])
  {
    if k > 0 {
      FindByIdIsFirstMatch(ts[1..], id, k - 1);
    }
  }

  /** Four templates with pairwise distinct ids; the first one is `modern-blue`. */
  lemma TemplateCatalogShape()
    ensures |ReportTemplates| == 4
    ensures TemplateIds(ReportTemplates) == ["modern-blue", "sweet-pink", "nature-green", "elegant-gold"]
    ensures NoDuplicates(TemplateIds(ReportTemplates))
    ensures ReportTemplates[0].id == "modern-blue"
  {
  }

  /** Eight services with ids "1".."8", none checked. */
  lemma ServiceCatalogShape()
    ensures |DefaultServices| == 8
    ensures ServiceIds(DefaultServices) == ["1", "2", "3", "4", "5", "6", "7", "8"]
    ensures forall i :: 0 <= i < |DefaultServices| ==> !DefaultServices[i].checked
  {
    var ids := ServiceIds(DefaultServices);
    var expected := ["1", "2", "3", "4", "5", "6", "7", "8"];
    forall i | 0 <= i < |expected|
      ensures ids[i] == expected[i]
    {
    }
    assert ids == expected;
  }

  /** No two entries of a service list share an id or a name. */
  predicate DistinctEntries(ss: seq<GroomingService>) {
    forall a, b :: 0 <= a < b < |ss| ==> ss[a].id != ss[b].id && ss[a].name != ss[b].name
  }

  /**
   * Service ids and names are pairwise distinct, so toggling a service by id or
   * by name is unambiguous.
   */
  lemma ServiceEntriesDistinct()
    ensures DistinctEntries(DefaultServices)
  {
  }

  /** Every catalog template is found by its own id, and the lookup returns that same entry. */
  lemma FindCatalogTemplate(k: nat)
    requires k < |ReportTemplates|
    ensures FindById(ReportTemplates, ReportTemplates[k].id) == Some(ReportTemplates[k])
  {
    TemplateCatalogShape();
    var ids := TemplateIds(ReportTemplates);
    var r := FindById(ReportTemplates, ReportTemplates[k].id);
    assert r.Some?;
    var j :| 0 <= j < |ReportTemplates| && ReportTemplates[j] == r.value;
    assert ids[j] == ids[k];
  }
}
