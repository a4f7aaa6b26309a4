/** The post-save hook on brands: a brand that has just been created gets one
    business unit named "Default Business Unit", owned by the brand's user. */
module Signals {
  import opened Wrappers
  import opened Schema
  import Constraints

  datatype Store = Store(brands: map<Id, Brand>, brandUnits: map<Id, BrandBusinessUnit>, nextId: Id)

  predicate Valid(s: Store) {
    && (forall k :: k in s.brands ==> k < s.nextId)
    && (forall k :: k in s.brandUnits ==> k < s.nextId)
  }

  /** The default unit a new brand gets. */
  function DefaultUnitFor(brandId: Id, b: Brand): BrandBusinessUnit {
    BrandBusinessUnit(DefaultUnitName, Some(DefaultUnitDescription), Active, brandId, b.user)
  }

  function UnitsOf(s: Store, brandId: Id): set<Id> {
    set k | k in s.brandUnits && s.brandUnits[k].brand == brandId
  }

  /** `create_default_business_unit`: when the save created the brand, add exactly one unit
      for it, named and described as the default and owned by the brand's user; a save that
      only updated the brand adds nothing. */
  function CreateDefaultBusinessUnit(s: Store, brandId: Id, created: bool): (r: Store)
    requires brandId in s.brands
    requires Valid(s)
    ensures Valid(r)
    ensures r.brands == s.brands
    ensures !created ==> r == s
    ensures created ==> exists u :: (u !in s.brandUnits && r.brandUnits == s.brandUnits[u := DefaultUnitFor(brandId, s.brands[brandId])])
    ensures created ==> |UnitsOf(r, brandId)| == |UnitsOf(s, brandId)| + 1
    ensures created ==> forall k :: k in r.brandUnits && k !in s.brandUnits ==>
      && r.brandUnits[k].name == DefaultUnitName
      && r.brandUnits[k].brand == brandId
      && r.brandUnits[k].user == s.brands[brandId].user
  {
    if created then
      var u := s.nextId;
      var r := s.(brandUnits := s.brandUnits[u := DefaultUnitFor(brandId, s.brands[brandId])],
                  nextId := s.nextId + 1);
      NewUnitCounted(s, r, u, brandId);
      assert u !in s.brandUnits && r.brandUnits == s.brandUnits[u := DefaultUnitFor(brandId, s.brands[brandId])];
      r
    else s
  }

  /** Adding one unit of a brand under a fresh key adds that key to the brand's units. */
  lemma NewUnitCounted(s: Store, r: Store, u: Id, brandId: Id)
    requires u !in s.brandUnits && u in r.brandUnits && r.brandUnits[u].brand == brandId
    requires r.brandUnits == s.brandUnits[u := r.brandUnits[u]]
    ensures UnitsOf(r, brandId) == UnitsOf(s, brandId) + {u}
    ensures |UnitsOf(r, brandId)| == |UnitsOf(s, brandId)| + 1
  {
    assert UnitsOf(r, brandId) == UnitsOf(s, brandId) + {u};
  }

  /** Every brand has a unit named "Default Business Unit". */
  predicate EveryBrandHasDefaultUnit(s: Store) {
    forall b :: b in s.brands ==> exists u :: u in s.brandUnits && s.brandUnits[u].brand == b
                                                 && s.brandUnits[u].name == DefaultUnitName
  }

  /** The brand's character columns fit their `varchar(191)` width. */
  predicate BrandFits(b: Brand) {
    FitsCharColumn(b.name) && (b.clientCode.Some? ==> FitsCharColumn(b.clientCode.value))
  }

  /** Saving a brand: the widths and the unique name are checked, the row is written, and
      the post-save hook runs with `created` true exactly when the key was not yet in the table. */
  function SaveBrand(s: Store, pk: Option<Id>, b: Brand): (r: Result<(Store, Id), Constraints.SaveError>)
    requires Valid(s)
    ensures r == Failure(Constraints.ValueTooLong) <==> !BrandFits(b)
    ensures r.Success? <==> (BrandFits(b) &&
      forall j :: j in s.brands && j != KeyFor(s.nextId, pk) ==> s.brands[j].name != b.name)
    ensures r.Success? ==> Valid(r.value.0) && r.value.1 == KeyFor(s.nextId, pk)
    ensures r.Success? ==> r.value.0.brands == s.brands[r.value.1 := b]
    ensures r.Success? && r.value.1 in s.brands ==> r.value.0.brandUnits == s.brandUnits
    ensures r.Success? && r.value.1 !in s.brands ==>
      |UnitsOf(r.value.0, r.value.1)| == |UnitsOf(s, r.value.1)| + 1
    ensures r.Success? && r.value.1 !in s.brands ==>
      exists u :: u !in s.brandUnits && r.value.0.brandUnits == s.brandUnits[u := DefaultUnitFor(r.value.1, b)]
    ensures r.Success? && EveryBrandHasDefaultUnit(s) ==> EveryBrandHasDefaultUnit(r.value.0)
    ensures r.Success? && Constraints.NamesUnique(s.brands, (x: Brand) => x.name) ==>
      Constraints.NamesUnique(r.value.0.brands, (x: Brand) => x.name)
  {
    if b.clientCode.Some? && !FitsCharColumn(b.clientCode.value) then Failure(Constraints.ValueTooLong)
    else
    var id := KeyFor(s.nextId, pk);
    var brands :- Constraints.SaveNamed(s.brands, id, b, (x: Brand) => x.name);
    var s1 := s.(brands := brands, nextId := Advance(s.nextId, pk));
    var s2 := CreateDefaultBusinessUnit(s1, id, id !in s.brands);
    assert EveryBrandHasDefaultUnit(s) ==> EveryBrandHasDefaultUnit(s2) by {
      if EveryBrandHasDefaultUnit(s) {
        forall x | x in s2.brands
          ensures exists u :: u in s2.brandUnits && s2.brandUnits[u].brand == x
                              && s2.brandUnits[u].name == DefaultUnitName
        {
          if x in s.brands {
            var u :| u in s.brandUnits && s.brandUnits[u].brand == x && s.brandUnits[u].name == DefaultUnitName;
            assert u in s2.brandUnits && s2.brandUnits[u] == s.brandUnits[u];
          } else {
            assert x == id;
            var u :| u !in s1.brandUnits && s2.brandUnits == s1.brandUnits[u := DefaultUnitFor(id, b)];
            assert s2.brandUnits[u].brand == x;
          }
        }
      }
    }
    Success((s2, id))
  }
}
