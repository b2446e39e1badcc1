/**
 * `seedPlaces`: for each sample place, look for a stored place with the
 * same name, city and state and create the sample only when there is none.
 * The first failure ends the run with `success: false`.  Places created
 * before it stay.
 */
module Seed {
  import opened Wrappers
  import opened Http
  import opened Text
  import opened PlaceModel

  /** A sample as the seed file lists it. */
  datatype Sample = Sample(name: string, description: string, country: string, state: string, city: string, image: string)

  const CoxsBazarImage := "https://images.unsplash.com/photo-1506905925346-21bda4d32df4?ixlib=rb-4.0.3&ixid=M3wxMjA3fDB8MHxwaG90by1wYWdlfHx8fGVufDB8fHx8fA%3D%3D&auto=format&fit=crop&w=1920&q=80"
  const SundarbansImage := "https://images.unsplash.com/photo-1516026672322-bc52d61a55d5?ixlib=rb-4.0.3&ixid=M3wxMjA3fDB8MHxwaG90by1wYWdlfHx8fGVufDB8fHx8fA%3D%3D&auto=format&fit=crop&w=1920&q=80"
  const SylhetImage := "https://images.unsplash.com/photo-1563822249548-9a72b6353cd1?ixlib=rb-4.0.3&ixid=M3wxMjA3fDB8MHxwaG90by1wYWdlfHx8fGVufDB8fHx8fA%3D%3D&auto=format&fit=crop&w=1920&q=80"
  const OldDhakaImage := "https://images.unsplash.com/photo-1558618047-3c8c76ca7d13?ixlib=rb-4.0.3&ixid=M3wxMjA3fDB8MHxwaG90by1wYWdlfHx8fGVufDB8fHx8fA%3D%3D&auto=format&fit=crop&w=1920&q=80"

  /** The five samples, in the order the loop visits them. */
  const SamplePlaces: seq<Sample> := [
    Sample("Cox's Bazar", "World's longest natural sandy beach with beautiful sunsets and seafood",
           "Bangladesh", "Chattogram", "Cox's Bazar", CoxsBazarImage),
    Sample("Sundarbans", "World's largest mangrove forest and home to the Royal Bengal Tiger",
           "Bangladesh", "Khulna", "Khulna", SundarbansImage),
    Sample("Sylhet Tea Gardens", "Beautiful rolling hills covered with lush green tea plantations",
           "Bangladesh", "Sylhet", "Sylhet", SylhetImage),
    Sample("Bandarban Hills", "Stunning hill district with waterfalls, tribal culture, and mountain views",
           "Bangladesh", "Chattogram", "Bandarban", CoxsBazarImage),
    Sample("Old Dhaka", "Historic area with Mughal architecture, street food, and cultural heritage",
           "Bangladesh", "Dhaka", "Dhaka", OldDhakaImage)
  ]

  /**
   * What the function returns: `{ success: true, message }` on success and
   * `{ success: false, error }` from the catch.
   */
  datatype SeedResult =
    | SeedOk(message: string)
    | SeedError(error: string)
  {
    predicate success() {
      SeedOk?
    }
  }

  const Seeded := SeedOk("Places seeded successfully")
  const SeedFailed := SeedError("Failed to seed places")

  /** `Place.create(placeData)`'s input. */
  function FieldsOfSample(s: Sample): PlaceFields {
    PlaceFields(Some(s.name), Some(s.description), Some(s.country), Some(s.state), Some(s.city), Some(s.image), None)
  }

  /** The `findOne` filter, after the schema's `trim` setters. */
  function SampleKey(s: Sample): Key {
    Key(Trim(s.name), Trim(s.city), Trim(s.state))
  }

  /**
   * The loop from the `k`-th sample on, over the collection `places`: the
   * collection afterwards and whether no create failed.  `newId(k)` is the
   * id the `k`-th sample would get.
   */
  function Run(places: seq<PlaceDoc>, samples: seq<Sample>, newId: nat -> Id, now: int, k: nat): (seq<PlaceDoc>, bool)
    decreases |samples|
  {
    if samples == [] then (places, true)
    else if FindByKey(places, SampleKey(samples[0])).Some? then Run(places, samples[1..], newId, now, k + 1)
    else
      match Construct(FieldsOfSample(samples[0]), newId(k), now)
      case Err(_) => (places, false)
      case Ok(p) => Run(places + [p], samples[1..], newId, now, k + 1)
  }

  /** A created sample is stored under its trimmed key. */
  lemma CreatedKey(s: Sample, id: Id, now: int)
    requires Construct(FieldsOfSample(s), id, now).Ok?
    ensures KeyOf(Construct(FieldsOfSample(s), id, now).value) == SampleKey(s)
  {
  }

  /** A run keeps unique keys unique, and adds at most one place per sample. */
  lemma {:induction false} RunKeepsUnique(places: seq<PlaceDoc>, samples: seq<Sample>, newId: nat -> Id, now: int, k: nat)
    requires UniqueKeys(places)
    ensures UniqueKeys(Run(places, samples, newId, now, k).0)
    ensures |Run(places, samples, newId, now, k).0| <= |places| + |samples|
    decreases |samples|
  {
    if samples != [] {
      var s := samples[0];
      if FindByKey(places, SampleKey(s)).Some? {
        RunKeepsUnique(places, samples[1..], newId, now, k + 1);
      } else if Construct(FieldsOfSample(s), newId(k), now).Ok? {
        var p := Construct(FieldsOfSample(s), newId(k), now).value;
        CreatedKey(s, newId(k), now);
        AppendKeepsUnique(places, p);
        RunKeepsUnique(places + [p], samples[1..], newId, now, k + 1);
      }
    }
  }

  /** The keys of the samples, in order. */
  function SampleKeys(samples: seq<Sample>): (r: seq<Key>)
    ensures |r| == |samples| && forall i :: 0 <= i < |samples| ==> r[i] == SampleKey(samples[i])
  {
    if samples == [] then [] else [SampleKey(samples[0])] + SampleKeys(samples[1..])
  }

  /** Every place from index `n` of `after` on is valid and carries one of `keys`. */
  predicate AddedFrom(n: nat, after: seq<PlaceDoc>, keys: seq<Key>) {
    forall i :: n <= i < |after| ==> ValidPlace(after[i]) && KeyOf(after[i]) in keys
  }

  /** Every place a run adds is valid and carries the key of one of the samples. */
  lemma {:induction false} RunAddsSamples(places: seq<PlaceDoc>, samples: seq<Sample>, newId: nat -> Id, now: int, k: nat)
    ensures AddedFrom(|places|, Run(places, samples, newId, now, k).0, SampleKeys(samples))
    decreases |samples|
  {
    if samples != [] {
      var s := samples[0];
      var keys := SampleKeys(samples);
      assert keys == [SampleKey(s)] + SampleKeys(samples[1..]);
      if FindByKey(places, SampleKey(s)).Some? {
        RunAddsSamples(places, samples[1..], newId, now, k + 1);
      } else if Construct(FieldsOfSample(s), newId(k), now).Ok? {
        var p := Construct(FieldsOfSample(s), newId(k), now).value;
        var after := Run(places + [p], samples[1..], newId, now, k + 1).0;
        CreatedKey(s, newId(k), now);
        ConstructValid(FieldsOfSample(s), newId(k), now);
        RunAddsSamples(places + [p], samples[1..], newId, now, k + 1);
        PrefixKept(places + [p], samples[1..], newId, now, k + 1);
        assert after[|places|] == p;
      }
    }
  }

  /** A successful run leaves a place under every sample's key. */
  lemma {:induction false} RunCoversSamples(places: seq<PlaceDoc>, samples: seq<Sample>, newId: nat -> Id, now: int, k: nat)
    requires Run(places, samples, newId, now, k).1
    ensures forall s :: s in samples ==> FindByKey(Run(places, samples, newId, now, k).0, SampleKey(s)).Some?
    decreases |samples|
  {
    if samples != [] {
      var s := samples[0];
      var after := Run(places, samples, newId, now, k).0;
      var next := if FindByKey(places, SampleKey(s)).Some? then places
                  else places + [Construct(FieldsOfSample(s), newId(k), now).value];
      if FindByKey(places, SampleKey(s)).None? {
        CreatedKey(s, newId(k), now);
        assert KeyOf(next[|places|]) == SampleKey(s);
      }
      assert FindByKey(next, SampleKey(s)).Some?;
      RunCoversSamples(next, samples[1..], newId, now, k + 1);
      KeepsFound(next, samples[1..], newId, now, k + 1, SampleKey(s));
    }
  }

  /** A key that is found before a run is still found after it. */
  lemma KeepsFound(places: seq<PlaceDoc>, samples: seq<Sample>, newId: nat -> Id, now: int, k: nat, key: Key)
    requires FindByKey(places, key).Some?
    ensures FindByKey(Run(places, samples, newId, now, k).0, key).Some?
  {
    var q := FindByKey(places, key).value;
    PrefixKept(places, samples, newId, now, k);
    assert q in Run(places, samples, newId, now, k).0;
  }

  /** A run never changes or removes a place: the collection before is a prefix of the one after. */
  lemma {:induction false} PrefixKept(places: seq<PlaceDoc>, samples: seq<Sample>, newId: nat -> Id, now: int, k: nat)
    ensures places <= Run(places, samples, newId, now, k).0
    decreases |samples|
  {
    if samples != [] {
      var s := samples[0];
      if FindByKey(places, SampleKey(s)).Some? {
        PrefixKept(places, samples[1..], newId, now, k + 1);
      } else if Construct(FieldsOfSample(s), newId(k), now).Ok? {
        PrefixKept(places + [Construct(FieldsOfSample(s), newId(k), now).value], samples[1..], newId, now, k + 1);
      }
    }
  }

  /** When every sample's key is already taken, a run creates nothing and succeeds. */
  lemma {:induction false} NothingToCreate(places: seq<PlaceDoc>, samples: seq<Sample>, newId: nat -> Id, now: int, k: nat)
    requires forall s :: s in samples ==> FindByKey(places, SampleKey(s)).Some?
    ensures Run(places, samples, newId, now, k) == (places, true)
    decreases |samples|
  {
    if samples != [] {
      assert samples[0] in samples;
      NothingToCreate(places, samples[1..], newId, now, k + 1);
    }
  }

  /** Seeding again right after a successful run creates nothing. */
  lemma SeedIdempotent(places: seq<PlaceDoc>, samples: seq<Sample>, newId: nat -> Id, newId2: nat -> Id, now: int, now2: int)
    requires Run(places, samples, newId, now, 0).1
    ensures var after := Run(places, samples, newId, now, 0).0;
      Run(after, samples, newId2, now2, 0) == (after, true)
  {
    RunCoversSamples(places, samples, newId, now, 0);
    NothingToCreate(Run(places, samples, newId, now, 0).0, samples, newId2, now2, 0);
  }

  /** A sample is created exactly when its key is not yet taken, if creating it succeeds. */
  lemma CreatesIffAbsent(places: seq<PlaceDoc>, s: Sample, newId: nat -> Id, now: int, k: nat)
    requires Construct(FieldsOfSample(s), newId(k), now).Ok?
    ensures var after := Run(places, [s], newId, now, k).0;
      (FindByKey(places, SampleKey(s)).None? ==> after == places + [Construct(FieldsOfSample(s), newId(k), now).value])
      && (FindByKey(places, SampleKey(s)).Some? ==> after == places)
  {
  }

  /** The place collection the seed writes to. */
  class PlaceCollection {
    var places: seq<PlaceDoc>

    constructor(places: seq<PlaceDoc>)
      ensures this.places == places
    {
      this.places := places;
    }

    /**
     * The seed function, run over `SamplePlaces`.  `connected` is whether `dbConnect` succeeded;
     * `newId(k)` is the id the `k`-th sample gets when it is created.
     */
    method SeedPlaces(samples: seq<Sample>, connected: bool, newId: nat -> Id, now: int) returns (r: SeedResult)
      modifies this`places
      ensures !connected ==> r == SeedFailed && places == old(places)
      ensures connected ==> (places, r.success()) == Run(old(places), samples, newId, now, 0)
      ensures r == if r.success() then Seeded else SeedFailed
    {
      if !connected {
        return SeedFailed;
      }
      var i := 0;
      while i < |samples|
        invariant 0 <= i <= |samples|
        invariant Run(old(places), samples, newId, now, 0) == Run(places, samples[i..], newId, now, i)
      {
        var s := samples[i];
        assert samples[i..][1..] == samples[i + 1..];
        var existing := FindByKey(places, SampleKey(s));
        if existing.None? {
          var created := Construct(FieldsOfSample(s), newId(i), now);
          if created.Err? {
            return SeedFailed;
          }
          places := places + [created.value];
        }
        i := i + 1;
      }
      return Seeded;
    }
  }
}
