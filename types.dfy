/**
 * The report draft's data model: the pet, the catalog service entry, the report
 * itself with its two optional photo slots, and the colour template.
 *
 * Beside the datatypes live the small record updates that both wizard revisions
 * perform with object spreads, and the fallback that JavaScript's `||` gives on
 * strings (the empty string is the only falsy string).
 */
module Types {

  datatype Option<+T> = None | Some(value: T)

  /** `'male' | 'female' | 'other'`: exactly one of three. */
  datatype Gender = Male | Female | Other

  datatype PetInfo = PetInfo(name: string, breed: string, age: string, weight: string, gender: Gender)

  /** The string-typed keys of PetInfo, the ones a text input can write. */
  datatype PetField = Name | Breed | Age | Weight

  /** One selectable entry of the service catalog. */
  datatype GroomingService = GroomingService(id: string, name: string, checked: bool)

  /** The two independent photo slots; each holds at most one data URL. */
  datatype Photos = Photos(before: Option<string>, after: Option<string>)

  datatype PhotoRole = Before | After

  datatype GroomingReport = GroomingReport(
    pet: PetInfo,
    services: seq<string>,
    notes: string,
    aiEnhancedNotes: Option<string>,
    date: string,
    groomerName: string,
    photos: Photos,
    templateId: string
  )

  datatype ReportTemplate = ReportTemplate(
    id: string,
    name: string,
    primaryColor: string,
    secondaryColor: string,
    textColor: string,
    accentColor: string,
    bgPattern: Option<string>
  )

  /** What the export library hands back: a PNG data URL, or a thrown error. */
  datatype ExportOutcome = Rendered(dataUrl: string) | Failed

  predicate NoDuplicates<T(==)>(xs: seq<T>) {
    forall i, j :: 0 <= i < j < |xs| ==> xs[i] != xs[j]
  }

  /** `s || fallback` for a string `s`. */
  function OrElse(s: string, fallback: string): (r: string)
    ensures r == s || r == fallback
    ensures s != "" ==> r == s
    ensures s == "" ==> r == fallback
    ensures fallback != "" ==> r != ""
  {
    if s != "" then s else fallback
  }

  /** `o || fallback` for an optional string: both absence and "" are falsy. */
  function OptionOrElse(o: Option<string>, fallback: string): (r: string)
    ensures o.Some? && o.value != "" ==> r == o.value
    ensures (o.None? || o.value == "") ==> r == fallback
  {
    match o
    case Some(s) => OrElse(s, fallback)
    case None => fallback
  }

  /** True when the optional string would pass a JavaScript truthiness test. */
  predicate Present(o: Option<string>) {
    o.Some? && o.value != ""
  }

  function PetFieldValue(pet: PetInfo, field: PetField): string {
    match field
    case Name => pet.name
    case Breed => pet.breed
    case Age => pet.age
    case Weight => pet.weight
  }

  /** `{ ...pet, [field]: value }` */
  function SetPetField(pet: PetInfo, field: PetField, value: string): (p: PetInfo)
    ensures PetFieldValue(p, field) == value
    ensures forall f :: f != field ==> PetFieldValue(p, f) == PetFieldValue(pet, f)
    ensures p.gender == pet.gender
  {
    match field
    case Name => pet.(name := value)
    case Breed => pet.(breed := value)
    case Age => pet.(age := value)
    case Weight => pet.(weight := value)
  }

  function PhotoAt(photos: Photos, role: PhotoRole): Option<string> {
    match role
    case Before => photos.before
    case After => photos.after
  }

  /** `{ ...photos, before: img }` or `{ ...photos, after: img }` */
  function WithPhoto(photos: Photos, role: PhotoRole, img: string): (q: Photos)
    ensures PhotoAt(q, role) == Some(img)
    ensures forall other :: other != role ==> PhotoAt(q, other) == PhotoAt(photos, other)
  {
    match role
    case Before => photos.(before := Some(img))
    case After => photos.(after := Some(img))
  }

  /** A report's photos placed into the role's slot, everything else kept. */
  function UploadOnto(report: GroomingReport, role: PhotoRole, img: string): (r: GroomingReport)
    ensures PhotoAt(r.photos, role) == Some(img)
    ensures forall other :: other != role ==> PhotoAt(r.photos, other) == PhotoAt(report.photos, other)
    ensures r.(photos := report.photos) == report
  {
    report.(photos := WithPhoto(report.photos, role, img))
  }

  lemma {:induction false} WithPhotoReplaces(photos: Photos, role: PhotoRole, first: string, second: string)
    ensures WithPhoto(WithPhoto(photos, role, first), role, second) == WithPhoto(photos, role, second)
  {
    match role
    case Before =>
    case After =>
  }
}
