/** The fixed catalog of business verticals and the classifier that maps a
    free-text business-type label onto one of their ids. */
module Catalog {
  import opened Values
  import opened Text

  /** A catalog entry; `name` is the source's `label` field (`label` is a
      Dafny keyword). */
  datatype BusinessType = BusinessType(id: string, name: string, goal: nat)

  const Cleaning: string := "cleaning"
  const Photobooth: string := "photobooth"
  const Courses: string := "courses"

  /** The catalog, in the order the classifier tries it. */
  const BusinessTypes: seq<BusinessType> := [
    BusinessType(Cleaning, "Cleaning Services", 62),
    BusinessType(Photobooth, "Photobooth Business", 48),
    BusinessType(Courses, "Gold Wealth Academy", 32)
  ]

  const CatalogIds: seq<string> := [Cleaning, Photobooth, Courses]

  predicate IsCatalogId(id: string) {
    id in CatalogIds
  }

  /** `types.find((type) => candidate.includes(type.id))`: the first entry,
      in order, whose id occurs in `candidate`. */
  function Find(types: seq<BusinessType>, candidate: string): (r: Option<BusinessType>)
    ensures r.None? ==> forall i :: 0 <= i < |types| ==> !Occurs(types[i].id, candidate)
    ensures r.Some? ==>
      exists k :: 0 <= k < |types| && types[k] == r.value && Occurs(r.value.id, candidate) &&
        forall i :: 0 <= i < k ==> !Occurs(types[i].id, candidate)
  {
    if |types| == 0 then None
    else if Includes(candidate, types[0].id) then
      Some(types[0])
    else
      var r := Find(types[1..], candidate);
      assert r.Some? ==>
        exists k :: 0 <= k < |types| && types[k] == r.value && Occurs(r.value.id, candidate) &&
          forall i :: 0 <= i < k ==> !Occurs(types[i].id, candidate)
      by {
        if r.Some? {
          var k :| 0 <= k < |types[1..]| && types[1..][k] == r.value && Occurs(r.value.id, candidate) &&
            forall i :: 0 <= i < k ==> !Occurs(types[1..][i].id, candidate);
          assert types[k + 1] == r.value;
        }
      }
      r
  }

  /** `normalizeBusinessType`: a falsy label is `cleaning`; otherwise the first
      catalog id, in catalog order, that occurs in the lower-cased label, and
      `cleaning` when none does. */
  function NormalizeBusinessType(value: Option<string>): (r: string)
    ensures IsCatalogId(r)
    ensures !Truthy(value) ==> r == Cleaning
    ensures Truthy(value) ==>
      var lower := ToLower(value.value);
      && (Occurs(Cleaning, lower) ==> r == Cleaning)
      && (!Occurs(Cleaning, lower) && Occurs(Photobooth, lower) ==> r == Photobooth)
      && (!Occurs(Cleaning, lower) && !Occurs(Photobooth, lower) && Occurs(Courses, lower) ==> r == Courses)
      && (!Occurs(Cleaning, lower) && !Occurs(Photobooth, lower) && !Occurs(Courses, lower) ==> r == Cleaning)
  {
    if !Truthy(value) then Cleaning
    else
      var found := Find(BusinessTypes, ToLower(value.value));
      FindInCatalog(ToLower(value.value));
      if found.Some? then found.value.id else Cleaning
  }

  /** `Find` over the catalog, spelled out entry by entry. */
  lemma FindInCatalog(candidate: string)
    ensures Find(BusinessTypes, candidate) ==
      if Occurs(Cleaning, candidate) then Some(BusinessTypes[0])
      else if Occurs(Photobooth, candidate) then Some(BusinessTypes[1])
      else if Occurs(Courses, candidate) then Some(BusinessTypes[2])
      else None
  {
  }

  /** Each catalog id classifies as itself: it is lower case, it contains
      itself, and it contains no id that comes before it. */
  lemma NormalizeFixesIds(id: string)
    requires IsCatalogId(id)
    ensures NormalizeBusinessType(Some(id)) == id
  {
    if id == Cleaning {
      CleaningIsFixed();
    } else if id == Photobooth {
      PhotoboothIsFixed();
    } else {
      CoursesIsFixed();
    }
  }

  lemma CleaningIsFixed()
    ensures NormalizeBusinessType(Some(Cleaning)) == Cleaning
  {
  }

  lemma PhotoboothIsFixed()
    ensures NormalizeBusinessType(Some(Photobooth)) == Photobooth
  {
    OccursInItself(Photobooth);
    AbsentCharBlocks(Cleaning, Photobooth, 0);
  }

  lemma CoursesIsFixed()
    ensures NormalizeBusinessType(Some(Courses)) == Courses
  {
    OccursInItself(Courses);
    AbsentCharBlocks(Cleaning, Courses, 1);
    AbsentCharBlocks(Photobooth, Courses, 0);
  }

  lemma OccursInItself(id: string)
    requires IsLower(id)
    ensures ToLower(id) == id && Occurs(id, id)
  {
    ToLowerOfLower(id);
    assert SliceAt(id, id, 0);
  }

  /** Classifying an already classified value changes nothing. */
  lemma NormalizeIdempotent(value: Option<string>)
    ensures NormalizeBusinessType(Some(NormalizeBusinessType(value))) == NormalizeBusinessType(value)
  {
    NormalizeFixesIds(NormalizeBusinessType(value));
  }

  /** Classification ignores ASCII case. */
  lemma NormalizeIgnoresCase(s: string)
    ensures NormalizeBusinessType(Some(ToLower(s))) == NormalizeBusinessType(Some(s))
  {
    ToLowerOfLower(ToLower(s));
  }

  /** An id written in any case anywhere in a label wins when no earlier
      catalog id occurs in the label. */
  lemma EmbeddedIdWins(prefix: string, word: string, suffix: string, k: nat)
    requires k < |CatalogIds| && ToLower(word) == CatalogIds[k]
    requires forall j :: 0 <= j < k ==> !Occurs(CatalogIds[j], ToLower(prefix + word + suffix))
    ensures NormalizeBusinessType(Some(prefix + word + suffix)) == CatalogIds[k]
  {
    var lower := ToLower(prefix + word + suffix);
    ToLowerAppend(prefix + word, suffix);
    ToLowerAppend(prefix, word);
    assert lower[|prefix|..|prefix| + |word|] == CatalogIds[k];
    assert SliceAt(CatalogIds[k], lower, |prefix|);
    if k > 0 { assert !Occurs(CatalogIds[0], lower); }
    if k > 1 { assert !Occurs(CatalogIds[1], lower); }
  }

  /** The classifier matches ids, not labels: the label of the `courses`
      vertical, "Gold Wealth Academy", classifies as `cleaning`. */
  lemma AcademyLabelIsCleaning()
    ensures NormalizeBusinessType(Some(BusinessTypes[2].name)) == Cleaning
  {
    AcademyLacksCleaning();
    AcademyLacksPhotobooth();
    AcademyLacksCourses();
  }

  // One id per helper keeps each literal-string obligation small.
  lemma AcademyLacksCleaning()
    ensures !Occurs(Cleaning, ToLower(BusinessTypes[2].name))
  {
    var caption := BusinessTypes[2].name;
    assert 'n' !in caption && 'N' !in caption;
    AbsentFromLower(caption, 'n');
    AbsentCharBlocks(Cleaning, ToLower(caption), 4);
  }

  lemma AcademyLacksPhotobooth()
    ensures !Occurs(Photobooth, ToLower(BusinessTypes[2].name))
  {
    var caption := BusinessTypes[2].name;
    assert 'p' !in caption && 'P' !in caption;
    AbsentFromLower(caption, 'p');
    AbsentCharBlocks(Photobooth, ToLower(caption), 0);
  }

  lemma AcademyLacksCourses()
    ensures !Occurs(Courses, ToLower(BusinessTypes[2].name))
  {
    var caption := BusinessTypes[2].name;
    assert 'r' !in caption && 'R' !in caption;
    AbsentFromLower(caption, 'r');
    AbsentCharBlocks(Courses, ToLower(caption), 3);
  }

  /** The other two labels happen to contain their own id. */
  lemma CleaningLabelIsCleaning()
    ensures NormalizeBusinessType(Some(BusinessTypes[0].name)) == Cleaning
  {
    LabelStartsWithId(BusinessTypes[0].name, Cleaning);
  }

  lemma PhotoboothLabelIsPhotobooth()
    ensures NormalizeBusinessType(Some(BusinessTypes[1].name)) == Photobooth
  {
    PhotoboothLacksCleaning();
    LabelStartsWithId(BusinessTypes[1].name, Photobooth);
  }

  lemma PhotoboothLacksCleaning()
    ensures !Occurs(Cleaning, ToLower(BusinessTypes[1].name))
  {
    var caption := BusinessTypes[1].name;
    assert 'c' !in caption && 'C' !in caption;
    AbsentFromLower(caption, 'c');
    AbsentCharBlocks(Cleaning, ToLower(caption), 0);
  }

  /** A label that begins with an id in any case contains that id once lower-cased. */
  lemma LabelStartsWithId(caption: string, id: string)
    requires |id| <= |caption| && ToLower(caption[..|id|]) == id
    ensures Occurs(id, ToLower(caption))
  {
    LowerPrefix(caption, |id|);
    assert SliceAt(id, ToLower(caption), 0);
  }
}
