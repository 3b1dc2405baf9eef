/** `listBreeds()` of the sample's service: the API's map from breed to its
    sub-breeds, in the order the JSON lists them, is flattened into the
    names the dropdown offers. A breed without sub-breeds is offered as
    itself; a breed with sub-breeds is offered only as "breed/sub" for each
    of them, in order. */
module Breeds {

  /** One entry of the response's `message` map. */
  datatype BreedEntry = BreedEntry(breed: string, subBreeds: seq<string>)

  /** The names one entry contributes. */
  function EntryNames(e: BreedEntry): (names: seq<string>)
    ensures e.subBreeds == [] ==> names == [e.breed]
    ensures e.subBreeds != [] ==> |names| == |e.subBreeds|
    ensures forall i :: 0 <= i < |e.subBreeds| ==> names[i] == e.breed + "/" + e.subBreeds[i]
  {
    if e.subBreeds == [] then [e.breed]
    else seq(|e.subBreeds|, i requires 0 <= i < |e.subBreeds| => e.breed + "/" + e.subBreeds[i])
  }

  /** The `flatMap` over the entries. */
  function Flatten(entries: seq<BreedEntry>): seq<string>
  {
    if entries == [] then [] else EntryNames(entries[0]) + Flatten(entries[1..])
  }

  /** How many names an entry contributes: one per sub-breed, or one. */
  function Width(e: BreedEntry): nat
  {
    if e.subBreeds == [] then 1 else |e.subBreeds|
  }

  function TotalWidth(entries: seq<BreedEntry>): nat
  {
    if entries == [] then 0 else Width(entries[0]) + TotalWidth(entries[1..])
  }

  /** Flattening keeps the order of the entries. */
  lemma {:induction false} FlattenAppend(a: seq<BreedEntry>, b: seq<BreedEntry>)
    ensures Flatten(a + b) == Flatten(a) + Flatten(b)
    decreases |a|
  {
    if a == [] {
      assert a + b == b;
    } else {
      assert (a + b)[1..] == a[1..] + b;
      FlattenAppend(a[1..], b);
    }
  }

  /** The list has one name per sub-breed, plus one per breed that has none;
      so it is empty exactly when the map is. */
  lemma {:induction false} FlattenLength(entries: seq<BreedEntry>)
    ensures |Flatten(entries)| == TotalWidth(entries)
    ensures Flatten(entries) == [] <==> entries == []
    decreases |entries|
  {
    if entries != [] {
      FlattenLength(entries[1..]);
    }
  }

  /** Every name comes from one entry: either a breed without sub-breeds,
      or "breed/sub" for one of the breed's sub-breeds. A breed with
      sub-breeds is never offered by its bare name (unless some other entry
      supplies it). */
  lemma {:induction false} FlattenNames(entries: seq<BreedEntry>, name: string)
    ensures name in Flatten(entries) <==>
      exists j :: 0 <= j < |entries| && name in EntryNames(entries[j])
    decreases |entries|
  {
    if entries != [] {
      var rest := entries[1..];
      FlattenNames(rest, name);
      assert Flatten(entries) == EntryNames(entries[0]) + Flatten(rest);
      assert name in Flatten(entries) <==> name in EntryNames(entries[0]) || name in Flatten(rest);
      if name in Flatten(rest) {
        var j :| 0 <= j < |rest| && name in EntryNames(rest[j]);
        assert rest[j] == entries[j + 1];
      }
      if name !in Flatten(entries) {
        forall j | 0 <= j < |entries|
          ensures name !in EntryNames(entries[j])
        {
          if j > 0 {
            assert rest[j - 1] == entries[j];
          }
        }
      }
    }
  }

  /** Two entries of the shape the breed list response has: one without
      sub-breeds, one with a single sub-breed. */
  method BreedsScenario()
  {
    var entries := [BreedEntry("affenpinscher", []), BreedEntry("australian", ["shepherd"])];
    assert EntryNames(entries[0]) == ["affenpinscher"];
    var names := EntryNames(entries[1]);
    assert |names| == 1 && names[0] == "australian" + "/" + "shepherd";
    assert entries[1..][1..] == [];
    assert Flatten(entries) == ["affenpinscher"] + names;
    assert Flatten(entries)[1] == "australian" + "/" + "shepherd";
  }
}
