/**
 The image manager's cleanup cycle, with arbitrary replies from Docker.
 */
module ImageManager {
  import opened Basics
  import opened ImageRecords

  datatype Reply = Removed | NoSuchImage | Failed

  /** Names left on an image after trying to remove each of them; call k gets reply docker(k). */
  function Kept(names: seq<string>, docker: nat -> Reply, k: nat): seq<string> {
    if names == [] then []
    else if names[0] == "" then [""] + Kept(names[1..], docker, k)
    else (if docker(k).Failed? then [names[0]] else []) + Kept(names[1..], docker, k + 1)
  }

  /** Whether some removal of these names fails. */
  predicate SomeFails(names: seq<string>, docker: nat -> Reply, k: nat) {
    names != [] &&
    if names[0] == "" then SomeFails(names[1..], docker, k)
    else docker(k).Failed? || SomeFails(names[1..], docker, k + 1)
  }

  function CallsFor(names: seq<string>): nat {
    if names == [] then 0 else (if names[0] == "" then 0 else 1) + CallsFor(names[1..])
  }

  /** removeImage tries the image's names, or its ID if it has none. */
  function Targets(im: Image): seq<string> { if im.names == [] then [im.id] else im.names }

  /** The image state is forgotten: everything was removed or already gone. */
  predicate Forgotten(im: Image, docker: nat -> Reply, k: nat) { Kept(Targets(im), docker, k) == [] }

  /** The image state stays in the map of images considered for deletion. */
  predicate StaysConsidered(im: Image, docker: nat -> Reply, k: nat) {
    !Forgotten(im, docker, k) && !SomeFails(Targets(im), docker, k)
  }

  predicate Removable(im: Image) { "" !in Targets(im) }

  lemma {:induction false} KeptOnlyOnFailure(names: seq<string>, docker: nat -> Reply, k: nat)
    ensures "" !in names ==> (Kept(names, docker, k) != [] <==> SomeFails(names, docker, k))
    ensures "" in names ==> Kept(names, docker, k) != []
    ensures Kept(names, docker, k) != [] && !SomeFails(names, docker, k) ==> "" in names
    decreases names
  {
    if names != [] { KeptOnlyOnFailure(names[1..], docker, if names[0] == "" then k else k + 1); }
  }

  /**
   A pick leaves the map of considered images whatever Docker replies, exactly when none of its
   names (or its ID, if it has no name) is empty.
   */
  lemma PickShrinksIff(im: Image)
    ensures Removable(im) <==> forall docker: nat -> Reply, k: nat :: !StaysConsidered(im, docker, k)
  {
    if Removable(im) {
      forall docker: nat -> Reply, k: nat ensures !StaysConsidered(im, docker, k) {
        KeptOnlyOnFailure(Targets(im), docker, k);
      }
    } else {
      var docker := (k: nat) => Removed;
      KeptOnlyOnFailure(Targets(im), docker, 0);
      NeverFails(Targets(im), docker, 0);
      assert StaysConsidered(im, docker, 0);
    }
  }

  lemma {:induction false} NeverFails(names: seq<string>, docker: nat -> Reply, k: nat)
    requires forall j: nat :: docker(j) == Removed
    ensures !SomeFails(names, docker, k)
    decreases names
  {
    if names != [] { NeverFails(names[1..], docker, if names[0] == "" then k else k + 1); }
  }

  lemma {:induction false} KeptSnoc(names: seq<string>, name: string, docker: nat -> Reply, k: nat)
    ensures CallsFor(names + [name]) == CallsFor(names) + (if name == "" then 0 else 1)
    ensures Kept(names + [name], docker, k) ==
              Kept(names, docker, k) + (if name == "" || docker(k + CallsFor(names)).Failed? then [name] else [])
    ensures SomeFails(names + [name], docker, k) ==
              (SomeFails(names, docker, k) || (name != "" && docker(k + CallsFor(names)).Failed?))
    ensures forall n | n in Kept(names, docker, k) :: n in names
    decreases names
  {
    if names == [] {
      assert names + [name] == [name];
    } else {
      assert (names + [name])[1..] == names[1..] + [name];
      KeptSnoc(names[1..], name, docker, if names[0] == "" then k else k + 1);
    }
  }

  lemma {:induction false} KeptDistinct(names: seq<string>, docker: nat -> Reply, k: nat)
    requires NoDuplicates(names)
    ensures NoDuplicates(Kept(names, docker, k)) && forall n | n in Kept(names, docker, k) :: n in names
    decreases names
  {
    if names != [] {
      var next := if names[0] == "" then k else k + 1;
      KeptDistinct(names[1..], docker, next);
      assert names[0] !in names[1..];
      var rest := Kept(names[1..], docker, next);
      assert forall i | 0 <= i < |rest| :: rest[i] in rest;
    }
  }

  lemma {:induction false} WithoutMiddle(a: seq<string>, x: string, b: seq<string>)
    requires x !in a && x !in b
    ensures Without(a + [x] + b, x) == a + b
  {
    if a == [] {
      assert a + [x] + b == [x] + b && ([x] + b)[1..] == b;
      WithoutAbsent(b, x);
    } else {
      assert (a + [x] + b)[1..] == a[1..] + [x] + b;
      WithoutMiddle(a[1..], x, b);
    }
  }

  // --- what one cycle does ----------------------------------------------------------------------

  ghost predicate Sorted(picks: seq<Image>) {
    forall i, j | 0 <= i < j < |picks| :: picks[i].lastUsedAt <= picks[j].lastUsedAt
  }

  /** Picked are as many as allowed and possible, each once, oldest use first, and no one older is left. */
  ghost predicate LeastRecentlyUsed(picks: seq<Image>, eligible: set<Image>, allowed: int) {
    && |picks| == (if allowed <= 0 then 0 else if allowed < |eligible| then allowed else |eligible|)
    && NoDuplicates(picks) && Sorted(picks)
    && (forall p | p in picks :: p in eligible)
    && (forall p, e | p in picks && e in eligible && e !in picks :: p.lastUsedAt <= e.lastUsedAt)
  }

  lemma {:induction false} DistinctCount<T>(s: seq<T>)
    requires NoDuplicates(s)
    ensures |set x | x in s| == |s|
  {
    if s != [] {
      DistinctCount(s[1..]);
      assert (set x | x in s) == {s[0]} + (set x | x in s[1..]);
      assert s[0] !in s[1..];
    }
  }

  /** Image i now has these names; with no name left its state is dropped. */
  function SetNames(images: seq<Image>, i: nat, names: seq<string>): seq<Image>
    requires i < |images|
  {
    if names == [] then images[..i] + images[i + 1..] else images[i := images[i].(names := names)]
  }

  lemma SetNamesAgain(images: seq<Image>, i: nat, a: seq<string>, b: seq<string>)
    requires i < |images| && a != []
    ensures |SetNames(images, i, a)| == |images| && SetNames(SetNames(images, i, a), i, b) == SetNames(images, i, b)
  {
  }

  lemma SetNamesFind(images: seq<Image>, i: nat, a: seq<string>)
    requires i < |images| && Has(images, images[i].id) && Find(images, images[i].id) == i && a != []
    ensures Has(SetNames(images, i, a), images[i].id) && Find(SetNames(images, i, a), images[i].id) == i
  {
  }

  function Ids(images: seq<Image>): set<string> { set i | 0 <= i < |images| :: images[i].id }

  lemma HasIsId(images: seq<Image>, id: string)
    ensures Has(images, id) <==> id in Ids(images)
  {
  }

  /** The image states with other IDs, in order. */
  function Others(images: seq<Image>, ids: set<string>): seq<Image> {
    if images == [] then []
    else if images[0].id in ids then Others(images[1..], ids)
    else [images[0]] + Others(images[1..], ids)
  }

  lemma {:induction false} OthersNone(images: seq<Image>)
    ensures Others(images, {}) == images
  {
    if images != [] { OthersNone(images[1..]); }
  }

  lemma {:induction false} OthersTwice(images: seq<Image>, ids: set<string>, id: string)
    ensures Others(images, ids + {id}) == Others(Others(images, ids), {id})
  {
    if images != [] {
      OthersTwice(images[1..], ids, id);
      if images[0].id !in ids {
        var rest := Others(images[1..], ids);
        assert Others(images, ids) == [images[0]] + rest && ([images[0]] + rest)[1..] == rest;
      }
    }
  }

  /** Renaming or dropping image i changes nothing else. */
  lemma {:induction false} SetNamesOthers(images: seq<Image>, i: nat, names: seq<string>)
    requires i < |images|
    ensures Others(SetNames(images, i, names), {images[i].id}) == Others(images, {images[i].id})
  {
    var r := SetNames(images, i, names);
    if i == 0 {
      if names == [] { assert r == images[1..]; } else { assert r[1..] == images[1..]; }
    } else {
      assert r[1..] == SetNames(images[1..], i - 1, names) && r[0] == images[0];
      SetNamesOthers(images[1..], i - 1, names);
    }
  }

  /** Apart from the image with this ID, the same image states. */
  ghost predicate AllBut(images: seq<Image>, images': seq<Image>, id: string) {
    && (forall im: Image | im.id != id :: im in images' <==> im in images)
    && Others(images', {id}) == Others(images, {id})
    && (UniqueIds(images) ==> UniqueIds(images'))
    && Ids(images) - {id} <= Ids(images') <= Ids(images)
  }

  lemma SetNamesAllBut(images: seq<Image>, i: nat, names: seq<string>)
    requires i < |images|
    ensures AllBut(images, SetNames(images, i, names), images[i].id)
  {
    SetNamesOthers(images, i, names);
    var r := SetNames(images, i, names);
    var id := images[i].id;
    forall im: Image | im.id != id ensures im in r <==> im in images {
      assert forall k | 0 <= k < i :: r[k] == images[k];
      assert names == [] ==> forall k | i < k < |images| :: r[k - 1] == images[k];
      assert names != [] ==> forall k | i < k < |images| :: r[k] == images[k];
    }
    forall q | q in Ids(images) && q != id ensures q in Ids(r) {
      var k :| 0 <= k < |images| && images[k].id == q;
      assert images[k] in r;
    }
  }

  lemma OthersStep(start: seq<Image>, images: seq<Image>, images': seq<Image>, picks: seq<Image>, pick: Image)
    requires Others(images, Ids(picks)) == Others(start, Ids(picks)) && AllBut(images, images', pick.id)
    ensures Others(images', Ids(picks + [pick])) == Others(start, Ids(picks + [pick]))
  {
    var ids := Ids(picks);
    IdsSnoc(picks, pick);
    OthersTwice(images, ids, pick.id);
    OthersTwice(start, ids, pick.id);
    assert {pick.id} + ids == ids + {pick.id};
    OthersMore(images, images', pick.id, ids);
  }

  lemma {:induction false} OthersSubset(images: seq<Image>, id: string, ids: set<string>)
    ensures Others(Others(images, {id}), ids) == Others(images, {id} + ids)
  {
    if images != [] {
      OthersSubset(images[1..], id, ids);
      var rest := Others(images[1..], {id});
      if images[0].id != id { assert ([images[0]] + rest)[1..] == rest; }
    }
  }

  lemma OthersMore(images: seq<Image>, images': seq<Image>, id: string, ids: set<string>)
    requires Others(images', {id}) == Others(images, {id})
    ensures Others(images', {id} + ids) == Others(images, {id} + ids)
  {
    OthersSubset(images, id, ids);
    OthersSubset(images', id, ids);
  }

  /** The same image with some of its names. */
  ghost predicate Lessened(x: Image, im: Image) {
    x == im.(names := x.names) && forall n | n in x.names :: n in im.names
  }

  ghost predicate ComesFrom(x: Image, images: seq<Image>) { exists im :: im in images && Lessened(x, im) }

  /** The image states after removeImage on image i. */
  function AfterRemoval(images: seq<Image>, i: nat, docker: nat -> Reply, k: nat): seq<Image>
    requires i < |images|
  {
    if Forgotten(images[i], docker, k) then images[..i] + images[i + 1..]
    else if images[i].names == [] then images
    else images[i := images[i].(names := Kept(images[i].names, docker, k))]
  }

  lemma RemovedAllBut(images: seq<Image>, i: nat, docker: nat -> Reply, k: nat)
    requires i < |images| && UniqueIds(images) && forall j | 0 <= j < |images| :: NoDuplicates(images[j].names)
    ensures var r := AfterRemoval(images, i, docker, k);
            && AllBut(images, r, images[i].id)
            && Ids(images) - Ids(r) == (if Forgotten(images[i], docker, k) then {images[i].id} else {})
            && (forall j | 0 <= j < |r| :: NoDuplicates(r[j].names))
            && (forall x | x in r && x.id == images[i].id :: Lessened(x, images[i]))
  {
    var im := images[i];
    if im.names != [] {
      SetNamesAllBut(images, i, Kept(im.names, docker, k));
      KeptDistinct(im.names, docker, k);
    } else if Forgotten(im, docker, k) {
      SetNamesAllBut(images, i, []);
    }
    RemovedIds(images, i, docker, k);
  }

  lemma RemovedIds(images: seq<Image>, i: nat, docker: nat -> Reply, k: nat)
    requires i < |images| && UniqueIds(images)
    ensures Ids(images) - Ids(AfterRemoval(images, i, docker, k)) == (if Forgotten(images[i], docker, k) then {images[i].id} else {})
  {
    var r := AfterRemoval(images, i, docker, k);
    if Forgotten(images[i], docker, k) {
      DroppedIds(images, i);
    } else {
      assert forall j | 0 <= j < |r| :: r[j].id == images[j].id;
    }
  }

  lemma DroppedIds(images: seq<Image>, i: nat)
    requires i < |images| && UniqueIds(images)
    ensures Ids(images) - Ids(images[..i] + images[i + 1..]) == {images[i].id}
  {
    var r := images[..i] + images[i + 1..];
    forall id | id in Ids(images) ensures id == images[i].id || id in Ids(r) {
      var j :| 0 <= j < |images| && images[j].id == id;
      if j != i { assert r[if j < i then j else j - 1] == images[j]; }
    }
    forall id | id in Ids(r) ensures id != images[i].id {
      var j :| 0 <= j < |r| && r[j].id == id;
      assert r[j] == images[if j < i then j else j + 1];
    }
    assert images[i].id in Ids(images);
  }

  lemma SameId(images: seq<Image>, a: Image, b: Image)
    requires UniqueIds(images) && a in images && b in images && a.id == b.id
    ensures a == b
  {
  }

  lemma IdsSnoc(picks: seq<Image>, pick: Image)
    ensures Ids(picks + [pick]) == Ids(picks) + {pick.id}
  {
    var all := picks + [pick];
    assert forall i | 0 <= i < |picks| :: all[i] == picks[i];
    assert all[|picks|] == pick;
    forall id | id in Ids(picks) ensures id in Ids(all) {
      var i :| 0 <= i < |picks| && picks[i].id == id;
      assert all[i].id == id;
    }
  }

  /** The picks so far are the least recently used of the eligible images. */
  ghost predicate PicksOK(picks: seq<Image>, eligible: set<Image>) {
    && NoDuplicates(picks) && Sorted(picks)
    && (forall p | p in picks :: p in eligible)
    && (forall p, e | p in picks && e in eligible && e !in picks :: p.lastUsedAt <= e.lastUsedAt)
  }

  lemma PickOne(picks: seq<Image>, eligible: set<Image>, pick: Image)
    requires PicksOK(picks, eligible) && pick in eligible && pick !in picks
    requires forall e | e in eligible && e !in picks :: pick.lastUsedAt <= e.lastUsedAt
    ensures PicksOK(picks + [pick], eligible)
  {
  }

  /** What is considered is what was eligible at the start, or too young or in use, and not yet picked. */
  ghost predicate InCycle(start: seq<Image>, pool: set<string>, eligible: set<Image>,
                          images: seq<Image>, considered: set<string>, picks: seq<Image>)
  {
    && UniqueIds(start)
    && (forall e | e in eligible :: e in start && e.id in pool)
    && considered == pool - Ids(picks)
    && (forall im: Image | im.id in considered :: im in images <==> im in start)
    && PicksOK(picks, eligible)
  }

  /** An eligible image that was not picked is still there to be picked. */
  lemma StillThere(start: seq<Image>, pool: set<string>, eligible: set<Image>,
                   images: seq<Image>, considered: set<string>, picks: seq<Image>, e: Image)
    requires InCycle(start, pool, eligible, images, considered, picks) && e in eligible && e !in picks
    ensures e in images && e.id in considered
  {
  }

  lemma CycleStep(start: seq<Image>, pool: set<string>, eligible: set<Image>,
                  images: seq<Image>, considered: set<string>, picks: seq<Image>,
                  pick: Image, images': seq<Image>, considered': set<string>)
    requires InCycle(start, pool, eligible, images, considered, picks)
    requires pick in eligible && pick.id in considered
    requires forall e | e in eligible && e in images && e.id in considered :: pick.lastUsedAt <= e.lastUsedAt
    requires AllBut(images, images', pick.id) && considered' == considered - {pick.id}
    ensures InCycle(start, pool, eligible, images', considered', picks + [pick])
  {
    assert pick !in picks;
    forall e | e in eligible && e !in picks ensures pick.lastUsedAt <= e.lastUsedAt {
      StillThere(start, pool, eligible, images, considered, picks, e);
    }
    PickOne(picks, eligible, pick);
    IdsSnoc(picks, pick);
  }

  lemma CycleEnds(picks: seq<Image>, eligible: set<Image>, allowed: int)
    requires PicksOK(picks, eligible)
    requires |picks| == allowed || (|picks| <= allowed && forall e | e in eligible :: e in picks) || (allowed <= 0 && picks == [])
    ensures LeastRecentlyUsed(picks, eligible, allowed)
  {
    DistinctCount(picks);
    var picked := set p | p in picks;
    assert picked <= eligible;
    SubsetCount(picked, eligible);
    if |picks| != allowed && !(allowed <= 0 && picks == []) { assert picked == eligible; }
  }

  /** The manager as it was when the names of image i began to be removed. */
  datatype Try = Try(images: seq<Image>, i: nat, names: seq<string>, engine: set<string>, considered: set<string>, calls: nat)

  class Manager {
    var imageStates: seq<Image>
    var considered: set<string>      // IDs in imageStatesConsideredForDeletion
    var engineImages: set<string>    // IDs the engine's state knows
    var calls: nat
    const minimumAge: int
    const numImagesToDelete: int
    const exclusions: seq<string>

    ghost predicate Valid()
      reads this
    {
      && UniqueIds(imageStates)
      && (forall i | 0 <= i < |imageStates| :: NoDuplicates(imageStates[i].names))
      && (forall id | id in considered :: Has(imageStates, id))
    }

    constructor (images: seq<Image>, minimumAge: int, numImagesToDelete: int, exclusions: seq<string>)
      requires UniqueIds(images) && forall i | 0 <= i < |images| :: NoDuplicates(images[i].names)
      ensures Valid() && imageStates == images && considered == {}
      ensures engineImages == set i | 0 <= i < |images| :: images[i].id
      ensures this.minimumAge == minimumAge && this.numImagesToDelete == numImagesToDelete && this.exclusions == exclusions
    {
      imageStates, considered, calls := images, {}, 0;
      engineImages := set i | 0 <= i < |images| :: images[i].id;
      this.minimumAge, this.numImagesToDelete, this.exclusions := minimumAge, numImagesToDelete, exclusions;
    }

    predicate Excluded(im: Image) { exists n | n in im.names :: n in exclusions }

    predicate OldAndUnused(im: Image, now: int) { now - im.pulledAt > minimumAge && im.containers == [] }

    predicate Eligible(im: Image, now: int) { !Excluded(im) && OldAndUnused(im, now) }

    /** removeExistingImageNameOfDifferentID: the loop over all image states. */
    method RemoveNameOfOthers(name: string, id: string)
      modifies this`imageStates
      ensures imageStates == UntagAll(old(imageStates), name, id)
    {
      for i := 0 to |imageStates|
        invariant |imageStates| == |old(imageStates)|
        invariant forall k | 0 <= k < i :: imageStates[k] == Untag(old(imageStates)[k], name, id)
        invariant forall k | i <= k < |imageStates| :: imageStates[k] == old(imageStates)[k]
      {
        if imageStates[i].id != id {
          imageStates := imageStates[i := imageStates[i].(names := Without(imageStates[i].names, name))];
        }
      }
    }

    method AddReferenceToExisting(id: string, name: string, container: string) returns (added: bool)
      modifies this`imageStates
      ensures var untagged := UntagAll(old(imageStates), name, id);
              && added == Has(untagged, id)
              && imageStates == (if added then Refer(untagged, id, name, container) else untagged)
    {
      RemoveNameOfOthers(name, id);
      added := Has(imageStates, id);
      if added {
        var i := Find(imageStates, id);
        var im := imageStates[i];
        imageStates := imageStates[i := im.(names := AddName(im.names, name), containers := im.containers + [container])];
      }
    }

    method AddReferenceToNew(id: string, name: string, container: string, now: int)
      modifies this`imageStates
      ensures imageStates == Insert(old(imageStates), id, name, container, now)
    {
      var added := AddReferenceToExisting(id, name, container);
      if !added { imageStates := imageStates + [Image(id, [name], [container], now, now)]; }
    }

    /**
     The container knows its image ID after a restart; otherwise Docker is asked (inspected is
     empty when that fails). A failed call leaves the images alone, except that a restarted
     container of an unknown image has still taken its name away from the others.
     */
    method RecordContainerReference(knownId: string, name: string, container: string, inspected: seq<string>, now: int)
      returns (ok: bool)
      modifies this`imageStates
      ensures ok == if knownId != "" then Has(UntagAll(old(imageStates), name, knownId), knownId) else name != "" && inspected != []
      ensures imageStates == if knownId != "" then Record(old(imageStates), knownId, name, container, now, true)
                             else if ok then Record(old(imageStates), inspected[0], name, container, now, false)
                             else old(imageStates)
    {
      if knownId != "" {
        ok := AddReferenceToExisting(knownId, name, container);
        return;
      }
      if name == "" || inspected == [] { return false; }
      var added := AddReferenceToExisting(inspected[0], name, container);
      if !added { AddReferenceToNew(inspected[0], name, container, now); }
      return true;
    }

    method ImagesToConsider() returns (ids: set<string>)
      ensures ids == set im | im in imageStates && (forall n | n in im.names :: n !in exclusions) :: im.id
    {
      ids := {};
      for i := 0 to |imageStates|
        invariant ids == set im | im in imageStates[..i] && !Excluded(im) :: im.id
      {
        assert imageStates[..i + 1] == imageStates[..i] + [imageStates[i]];
        if !Excluded(imageStates[i]) { ids := ids + {imageStates[i].id}; }
      }
      assert imageStates[..|imageStates|] == imageStates;
    }

    /** The considered images that are old and that no container uses, in some order. */
    method CandidateImages(now: int) returns (candidates: seq<Image>)
      requires Valid()
      ensures forall im :: im in candidates <==>
        im in imageStates && im.id in considered && im.containers == [] && now - im.pulledAt > minimumAge
    {
      candidates := [];
      var left := considered;
      while left != {}
        invariant left <= considered
        invariant forall im :: im in candidates <==> im in imageStates && im.id in considered - left && OldAndUnused(im, now)
      {
        var id :| id in left;
        left := left - {id};
        var im := imageStates[Find(imageStates, id)];
        assert forall x | x in imageStates && x.id == id :: x == im;
        if OldAndUnused(im, now) { candidates := candidates + [im]; }
      }
    }

    method LeastRecent(candidates: seq<Image>) returns (oldest: Image)
      requires candidates != []
      ensures oldest in candidates && forall im | im in candidates :: oldest.lastUsedAt <= im.lastUsedAt
    {
      oldest := candidates[0];
      for i := 1 to |candidates|
        invariant oldest in candidates && forall j | 0 <= j < i :: oldest.lastUsedAt <= candidates[j].lastUsedAt
      {
        if candidates[i].lastUsedAt < oldest.lastUsedAt { oldest := candidates[i]; }
      }
    }

    /** One removal call; the image state goes with its last name, from here and from the engine. */
    method DeleteImage(key: string, id: string, docker: nat -> Reply)
      requires Has(imageStates, id)
      modifies this`imageStates, this`considered, this`engineImages, this`calls
      ensures var i := Find(old(imageStates), id);
              var names := Without(old(imageStates)[i].names, key);
              var ok := key != "" && !docker(old(calls)).Failed?;
              && calls == old(calls) + (if key == "" then 0 else 1)
              && imageStates == (if ok then SetNames(old(imageStates), i, names) else old(imageStates))
              && considered == (if key == "" || (ok && names != []) then old(considered) else old(considered) - {id})
              && engineImages == (if ok && names == [] then old(engineImages) - {id} else old(engineImages))
    {
      if key == "" { return; }
      calls := calls + 1;
      if docker(calls - 1).Failed? {
        considered := considered - {id};
        return;
      }
      var i := Find(imageStates, id);
      var im := imageStates[i];
      imageStates := imageStates[i := im.(names := Without(im.names, key))];
      if Without(im.names, key) == [] {
        considered := considered - {id};
        imageStates := imageStates[..i] + imageStates[i + 1..];
        engineImages := engineImages - {id};
      }
    }

    /** Untags each name of the image in turn. */
    method RemoveNames(id: string, docker: nat -> Reply)
      requires Valid() && Has(imageStates, id) && imageStates[Find(imageStates, id)].names != []
      modifies this`imageStates, this`considered, this`engineImages, this`calls
      ensures var i := Find(old(imageStates), id);
              var names := old(imageStates)[i].names;
              var kept := Kept(names, docker, old(calls));
              && imageStates == SetNames(old(imageStates), i, kept)
              && engineImages == (if kept == [] then old(engineImages) - {id} else old(engineImages))
              && considered == (if kept != [] && !SomeFails(names, docker, old(calls)) then old(considered) else old(considered) - {id})
    {
      var i := Find(imageStates, id);
      var names := imageStates[i].names;
      ghost var t := Try(imageStates, i, names, engineImages, considered, calls);
      LeftEnds(names, docker, calls);
      for j := 0 to |names|
        invariant Tried(t, j, docker)
      {
        RemoveName(names[j], id, docker, t, j);
      }
    }

    /** The first j names have been tried, from the state t of the manager. */
    ghost predicate Tried(t: Try, j: nat, docker: nat -> Reply)
      requires t.i < |t.images| && j <= |t.names|
      reads this
    {
      var left := Left(t.names, j, docker, t.calls);
      var id := t.images[t.i].id;
      && calls == t.calls + CallsFor(t.names[..j])
      && imageStates == SetNames(t.images, t.i, left)
      && engineImages == (if left == [] then t.engine - {id} else t.engine)
      && considered == (if SomeFails(t.names[..j], docker, t.calls) || left == [] then t.considered - {id} else t.considered)
    }

    method RemoveName(name: string, id: string, docker: nat -> Reply, ghost t: Try, ghost j: nat)
      requires Has(t.images, id) && Find(t.images, id) == t.i
      requires NoDuplicates(t.names) && j < |t.names| && t.names[j] == name
      requires Tried(t, j, docker)
      modifies this`imageStates, this`considered, this`engineImages, this`calls
      ensures Tried(t, j + 1, docker)
    {
      ghost var left, next := Left(t.names, j, docker, t.calls), Left(t.names, j + 1, docker, t.calls);
      LeftStep(t.names, j, docker, t.calls);
      SetNamesFind(t.images, t.i, left);
      SetNamesAgain(t.images, t.i, left, next);
      ghost var images, ok := imageStates, name != "" && !docker(calls).Failed?;
      assert images[t.i].names == left && next == (if ok then Without(left, name) else left);
      DeleteImage(name, id, docker);
      assert imageStates == SetNames(t.images, t.i, next) by {
        if ok { assert imageStates == SetNames(images, t.i, next); }
      }
      assert !ok ==> next == left && next != [];
    }

    /**
     Tries every name, or the ID of an unnamed image. The state leaves the manager and the engine
     together, exactly when everything was removed or already gone; otherwise it keeps its place
     and the names that could not be removed. All other states and their order are untouched.
     */
    method RemoveImage(id: string, docker: nat -> Reply)
      requires Valid() && Has(imageStates, id)
      modifies this`imageStates, this`considered, this`engineImages, this`calls
      ensures var i := Find(old(imageStates), id);
              var im := old(imageStates)[i];
              && imageStates == AfterRemoval(old(imageStates), i, docker, old(calls))
              && engineImages == (if Forgotten(im, docker, old(calls)) then old(engineImages) - {id} else old(engineImages))
              && considered == (if StaysConsidered(im, docker, old(calls)) then old(considered) else old(considered) - {id})
    {
      if imageStates[Find(imageStates, id)].names == [] {
        KeptSnoc([], id, docker, calls);
        assert [] + [id] == [id];
        DeleteImage(id, id, docker);
      } else {
        RemoveNames(id, docker);
      }
    }

    /** A least recently used candidate, if there is one. */
    method UnusedImageForDeletion(now: int) returns (pick: seq<Image>)
      requires Valid()
      ensures |pick| <= 1
      ensures pick == [] ==> forall im | im in imageStates && im.id in considered :: !OldAndUnused(im, now)
      ensures pick != [] ==>
                && pick[0] in imageStates && pick[0].id in considered && OldAndUnused(pick[0], now)
                && forall im | im in imageStates && im.id in considered && OldAndUnused(im, now) ::
                     pick[0].lastUsedAt <= im.lastUsedAt
    {
      var candidates := CandidateImages(now);
      if candidates == [] { return []; }
      var oldest := LeastRecent(candidates);
      return [oldest];
    }

    /** Tries to remove this image and reports what that means for all the others. */
    method RemovePicked(im: Image, docker: nat -> Reply)
      requires Valid() && im in imageStates
      modifies this`imageStates, this`considered, this`engineImages, this`calls
      ensures Valid() && AllBut(old(imageStates), imageStates, im.id)
      ensures engineImages == old(engineImages) - (Ids(old(imageStates)) - Ids(imageStates))
      ensures Removable(im) ==> considered == old(considered) - {im.id}
      ensures considered <= old(considered) && forall x | x in imageStates && x.id == im.id :: Lessened(x, im)
    {
      var i := Find(imageStates, im.id);
      SameId(imageStates, imageStates[i], im);
      RemovedAllBut(imageStates, i, docker, calls);
      KeptOnlyOnFailure(Targets(im), docker, calls);
      RemoveImage(im.id, docker);
      forall id | id in considered ensures Has(imageStates, id) {
        HasIsId(old(imageStates), id);
        HasIsId(imageStates, id);
      }
    }

    /** The state of a cycle that started with these image states and this engine state. */
    ghost predicate Cycle(start: seq<Image>, pool: set<string>, engine: set<string>, now: int, picks: seq<Image>)
      reads this
    {
      && Valid() && UniqueIds(start)
      && pool == (set im | im in start && !Excluded(im) :: im.id)
      && Others(imageStates, Ids(picks)) == Others(start, Ids(picks))
      && Ids(imageStates) <= Ids(start)
      && engineImages == engine - (Ids(start) - Ids(imageStates))
      && considered <= pool && Spares(start, pool, imageStates, picks, now)
      && (AllRemovable(start, now) ==> InCycle(start, pool, EligibleSet(start, now), imageStates, considered, picks))
    }

    /** Only eligible images were picked and lost names; the others are all there. */
    ghost predicate Spares(start: seq<Image>, pool: set<string>, images: seq<Image>, picks: seq<Image>, now: int) {
      && (forall im: Image | im.id !in Ids(picks) :: im in images <==> im in start)
      && (forall im | im in images :: ComesFrom(im, start))
      && (forall p | p in picks :: p.id in pool && Eligible(p, now) && ComesFrom(p, start))
    }

    ghost predicate AllRemovable(start: seq<Image>, now: int) {
      forall im | im in start && Eligible(im, now) :: Removable(im)
    }

    /** removeLeastRecentlyUsedImage: one more pick, or none when no candidate is left. */
    method RemoveNext(now: int, docker: nat -> Reply, ghost start: seq<Image>, ghost pool: set<string>,
                      ghost engine: set<string>, ghost picks: seq<Image>) returns (pick: seq<Image>)
      requires Cycle(start, pool, engine, now, picks)
      modifies this`imageStates, this`considered, this`engineImages, this`calls
      ensures |pick| <= 1 && Cycle(start, pool, engine, now, picks + pick)
      ensures pick == [] && AllRemovable(start, now) ==> forall e | e in EligibleSet(start, now) :: e in picks
    {
      pick := UnusedImageForDeletion(now);
      if pick == [] {
        assert picks + pick == picks;
        if AllRemovable(start, now) {
          forall e | e in EligibleSet(start, now) ensures e in picks {
            if e !in picks { StillThere(start, pool, EligibleSet(start, now), imageStates, considered, picks, e); }
          }
        }
        return;
      }
      ghost var before, left := imageStates, considered;
      RemovePicked(pick[0], docker);
      assert picks + pick == picks + [pick[0]];
      OthersStep(start, before, imageStates, picks, pick[0]);
      SparesStep(start, pool, before, picks, pick[0], imageStates, now);
      if AllRemovable(start, now) {
        PooledIsEligible(start, pool, pick[0], now);
        CycleStep(start, pool, EligibleSet(start, now), before, left, picks, pick[0], imageStates, considered);
      }
    }

    /**
     One cycle. At most N images are picked; those not picked stay as they are, in order; states
     leave the manager and the engine together; and the budget for other images is what the picks
     left of N, or 1 when they used it up. If no eligible image has an empty name or ID, the picks
     are exactly the least recently used eligible images.
     */
    method RemoveUnusedImages(now: int, docker: nat -> Reply) returns (picks: seq<Image>, budget: int)
      requires Valid()
      modifies this`imageStates, this`considered, this`engineImages, this`calls
      ensures Valid()
      ensures |picks| <= (if numImagesToDelete <= 0 then 0 else numImagesToDelete)
      ensures budget == if |picks| < numImagesToDelete then numImagesToDelete - |picks|
                        else if numImagesToDelete <= 0 then numImagesToDelete else 1
      ensures Others(imageStates, Ids(picks)) == Others(old(imageStates), Ids(picks))
      ensures engineImages == old(engineImages) - (Ids(old(imageStates)) - Ids(imageStates))
      ensures forall p | p in picks ::
                p.containers == [] && now - p.pulledAt > minimumAge && forall n | n in p.names :: n !in exclusions
      ensures forall im | im in old(imageStates) && (forall p | p in picks :: p.id != im.id) :: im in imageStates
      ensures forall im | im in old(imageStates) :: im.containers != [] ==> im in imageStates
      ensures forall im | im in old(imageStates) :: now - im.pulledAt <= minimumAge ==> im in imageStates
      ensures forall im, n | im in old(imageStates) && n in im.names :: n in exclusions ==> im in imageStates
      ensures var eligible := set im | im in old(imageStates) && im.containers == [] && now - im.pulledAt > minimumAge
                                    && forall n | n in im.names :: n !in exclusions;
              (forall im | im in eligible :: im.id != "" && "" !in im.names) ==> LeastRecentlyUsed(picks, eligible, numImagesToDelete)
    {
      ghost var start := imageStates;
      var deleted;
      picks, deleted := RemoveFromPool(now, docker);
      budget := numImagesToDelete - deleted;
      PicksAreEligible(start, imageStates, picks, now);
    }

    /** Fills the pool and runs the loop. */
    method RemoveFromPool(now: int, docker: nat -> Reply) returns (picks: seq<Image>, deleted: int)
      requires Valid()
      modifies this`imageStates, this`considered, this`engineImages, this`calls
      ensures Valid()
      ensures |picks| <= (if numImagesToDelete <= 0 then 0 else numImagesToDelete)
      ensures deleted == if |picks| < numImagesToDelete || numImagesToDelete <= 0 then |picks| else numImagesToDelete - 1
      ensures Others(imageStates, Ids(picks)) == Others(old(imageStates), Ids(picks))
      ensures engineImages == old(engineImages) - (Ids(old(imageStates)) - Ids(imageStates))
      ensures forall im | im in old(imageStates) && !Eligible(im, now) :: im in imageStates
      ensures forall p | p in picks :: Eligible(p, now)
      ensures forall im: Image | im.id !in Ids(picks) :: im in imageStates <==> im in old(imageStates)
      ensures AllRemovable(old(imageStates), now) ==>
                LeastRecentlyUsed(picks, EligibleSet(old(imageStates), now), numImagesToDelete)
    {
      considered := ImagesToConsider();
      ghost var start, pool, engine := imageStates, considered, engineImages;
      OthersNone(imageStates);
      picks, deleted := RemoveCandidates(now, docker, start, pool, engine);
      SparesOthers(start, pool, imageStates, picks, now);
    }

    /** What the cycle did, in the fields of the images. */
    lemma PicksAreEligible(start: seq<Image>, images: seq<Image>, picks: seq<Image>, now: int)
      requires forall im | im in start && !Eligible(im, now) :: im in images
      requires forall p | p in picks :: Eligible(p, now)
      requires forall im: Image | im.id !in Ids(picks) :: im in images <==> im in start
      requires AllRemovable(start, now) ==> LeastRecentlyUsed(picks, EligibleSet(start, now), numImagesToDelete)
      ensures forall p | p in picks ::
                p.containers == [] && now - p.pulledAt > minimumAge && forall n | n in p.names :: n !in exclusions
      ensures forall im | im in start && (forall p | p in picks :: p.id != im.id) :: im in images
      ensures forall im | im in start :: im.containers != [] ==> im in images
      ensures forall im | im in start :: now - im.pulledAt <= minimumAge ==> im in images
      ensures forall im, n | im in start && n in im.names :: n in exclusions ==> im in images
      ensures var eligible := set im | im in start && im.containers == [] && now - im.pulledAt > minimumAge
                                    && forall n | n in im.names :: n !in exclusions;
              (forall im | im in eligible :: im.id != "" && "" !in im.names) ==> LeastRecentlyUsed(picks, eligible, numImagesToDelete)
    {
      assert EligibleSet(start, now) == set im | im in start && im.containers == [] && now - im.pulledAt > minimumAge
                                              && forall n | n in im.names :: n !in exclusions;
    }

    /** The loop of the cycle: one image at a time, up to N; `deleted` is the index of its last round. */
    method RemoveCandidates(now: int, docker: nat -> Reply, ghost start: seq<Image>, ghost pool: set<string>, ghost engine: set<string>)
      returns (picks: seq<Image>, deleted: int)
      requires Cycle(start, pool, engine, now, [])
      modifies this`imageStates, this`considered, this`engineImages, this`calls
      ensures Cycle(start, pool, engine, now, picks)
      ensures |picks| <= (if numImagesToDelete <= 0 then 0 else numImagesToDelete)
      ensures deleted == if |picks| < numImagesToDelete || numImagesToDelete <= 0 then |picks| else numImagesToDelete - 1
      ensures AllRemovable(start, now) ==> LeastRecentlyUsed(picks, EligibleSet(start, now), numImagesToDelete)
    {
      picks, deleted := [], 0;
      var i := 0;
      while i < numImagesToDelete
        invariant 0 <= i && (i <= numImagesToDelete || i == 0)
        invariant |picks| == i && deleted == (if i == 0 then 0 else i - 1)
        invariant Cycle(start, pool, engine, now, picks)
      {
        var pick := RemoveNext(now, docker, start, pool, engine, picks);
        deleted := i;
        if pick == [] { assert picks + pick == picks; break; }
        picks := picks + pick;
        i := i + 1;
      }
      if AllRemovable(start, now) { CycleEnds(picks, EligibleSet(start, now), numImagesToDelete); }
    }

    /** The pool holds the IDs of the images without an excluded name. */
    ghost predicate IsPool(start: seq<Image>, pool: set<string>) {
      UniqueIds(start) && pool == set im | im in start && !Excluded(im) :: im.id
    }

    lemma PooledIsAllowed(start: seq<Image>, pool: set<string>, im: Image)
      requires IsPool(start, pool) && im.id in pool && ComesFrom(im, start)
      ensures !Excluded(im) && forall s | s in start && s.id == im.id :: Lessened(im, s) && !Excluded(s)
    {
      var s :| s in start && Lessened(im, s);
      var t :| t in start && !Excluded(t) && t.id == im.id;
      SameId(start, s, t);
      forall x | x in start && x.id == im.id ensures x == s { SameId(start, s, x); }
    }

    /** An image in use, too young or excluded is still there. */
    lemma SparesOthers(start: seq<Image>, pool: set<string>, images: seq<Image>, picks: seq<Image>, now: int)
      requires IsPool(start, pool) && Spares(start, pool, images, picks, now)
      ensures forall im | im in start && !Eligible(im, now) :: im in images
    {
      forall im | im in start && !Eligible(im, now) ensures im in images {
        if im.id in Ids(picks) {
          var i :| 0 <= i < |picks| && picks[i].id == im.id;
          assert picks[i] in picks;
          PooledIsAllowed(start, pool, picks[i]);
        }
      }
    }

    /** The image of a container that was just recorded is not eligible, so no cycle removes it. */
    lemma RecordedIsSpared(images: seq<Image>, id: string, name: string, container: string, at: int, restarted: bool, now: int)
      requires UniqueIds(images)
      ensures forall im | im in Record(images, id, name, container, at, restarted) && im.id == id ::
        container in im.containers && im !in EligibleSet(Record(images, id, name, container, at, restarted), now)
    {
      Recorded(images, id, name, container, at, restarted);
    }

    lemma SparesStep(start: seq<Image>, pool: set<string>, before: seq<Image>, picks: seq<Image>, pick: Image,
                     after: seq<Image>, now: int)
      requires IsPool(start, pool) && Spares(start, pool, before, picks, now)
      requires pick in before && pick.id in pool && OldAndUnused(pick, now)
      requires AllBut(before, after, pick.id) && forall x | x in after && x.id == pick.id :: Lessened(x, pick)
      ensures Spares(start, pool, after, picks + [pick], now)
    {
      IdsSnoc(picks, pick);
      PooledIsAllowed(start, pool, pick);
      var s :| s in start && Lessened(pick, s);
      forall im | im in after ensures ComesFrom(im, start) {
        if im.id == pick.id { assert Lessened(im, s); } else { assert im in before; }
      }
    }

    lemma PooledIsEligible(start: seq<Image>, pool: set<string>, pick: Image, now: int)
      requires UniqueIds(start) && pool == (set im | im in start && !Excluded(im) :: im.id)
      requires pick in start && pick.id in pool && OldAndUnused(pick, now)
      ensures pick in EligibleSet(start, now)
    {
    }

    ghost function EligibleSet(images: seq<Image>, now: int): set<Image> {
      set im | im in images && Eligible(im, now)
    }
  }

  /** The names still on an image when the first j of them have been tried. */
  function Left(names: seq<string>, j: nat, docker: nat -> Reply, k: nat): seq<string>
    requires j <= |names|
  {
    Kept(names[..j], docker, k) + names[j..]
  }

  lemma LeftEnds(names: seq<string>, docker: nat -> Reply, k: nat)
    ensures Left(names, 0, docker, k) == names && CallsFor(names[..0]) == 0 && !SomeFails(names[..0], docker, k)
    ensures Left(names, |names|, docker, k) == Kept(names, docker, k)
    ensures SomeFails(names[..|names|], docker, k) == SomeFails(names, docker, k)
  {
    assert names[..|names|] == names && names[|names|..] == [];
    assert names[..0] == [] && names[0..] == names;
  }

  lemma LeftStep(names: seq<string>, j: nat, docker: nat -> Reply, k: nat)
    requires j < |names| && NoDuplicates(names)
    ensures Left(names, j, docker, k) != []
    ensures Left(names, j + 1, docker, k) ==
              if names[j] == "" || docker(k + CallsFor(names[..j])).Failed? then Left(names, j, docker, k)
              else Without(Left(names, j, docker, k), names[j])
    ensures CallsFor(names[..j + 1]) == CallsFor(names[..j]) + (if names[j] == "" then 0 else 1)
    ensures SomeFails(names[..j + 1], docker, k) ==
              (SomeFails(names[..j], docker, k) || (names[j] != "" && docker(k + CallsFor(names[..j])).Failed?))
  {
    assert names[..j + 1] == names[..j] + [names[j]];
    KeptSnoc(names[..j], names[j], docker, k);
    var kept := Kept(names[..j], docker, k);
    assert Left(names, j, docker, k) == kept + [names[j]] + names[j + 1..];
    assert names[j] !in names[..j] && names[j] !in names[j + 1..];
    WithoutMiddle(kept, names[j], names[j + 1..]);
  }

  // --- a removal among concurrent recordings --------------------------------------------------------

  lemma RemovedOrKept(names: seq<string>, j: nat, docker: nat -> Reply, k: nat)
    requires j < |names| && NoDuplicates(names)
    ensures Left(names, j, docker, k) != []
    ensures Left(names, j + 1, docker, k) == Left(names, j, docker, k)
         || Left(names, j + 1, docker, k) == Without(Left(names, j, docker, k), names[j])
  {
    LeftStep(names, j, docker, k);
  }

  /** The names of image i from the j-th on are tried, each removed name in a step of its own. */
  lemma {:induction false} NamesAreRun(s: System, i: nat, images: seq<Image>, j: nat, docker: nat -> Reply, k: nat)
      returns (run: seq<Step>)
    requires Unread(s) && i < |images| && NoDuplicates(images[i].names)
    requires j < |images[i].names| && s.images == SetNames(images, i, Left(images[i].names, j, docker, k))
    ensures CanRun(s, run) && Run(s, run) == s.(images := SetNames(images, i, Kept(images[i].names, docker, k)))
    ensures forall st | st in run :: st.Untagged? || st.Forget?
    decreases |images[i].names| - j
  {
    var names := images[i].names;
    var left, next := Left(names, j, docker, k), Left(names, j + 1, docker, k);
    RemovedOrKept(names, j, docker, k);
    LeftEnds(names, docker, k);
    run := TriedIsRun(s, i, images, left, names[j], next);
    var n := Run(s, run);
    if j + 1 < |names| {
      LeftStep(names, j + 1, docker, k);
      var rest := NamesAreRun(n, i, images, j + 1, docker, k);
      RunConcat(s, run, rest);
      run := run + rest;
    }
  }

  /** One name is tried: it goes or stays, and the image goes with its last one. */
  lemma TriedIsRun(s: System, i: nat, images: seq<Image>, left: seq<string>, name: string, next: seq<string>) returns (run: seq<Step>)
    requires Unread(s) && i < |images| && left != [] && s.images == SetNames(images, i, left)
    requires next == left || next == Without(left, name)
    ensures CanRun(s, run) && Run(s, run) == s.(images := SetNames(images, i, next))
    ensures forall st | st in run :: st.Untagged? || st.Forget?
  {
    if next == left {
      run := [];
    } else {
      var n := Next(s, Untagged(i, name));
      assert n.images == images[i := images[i].(names := next)];
      if next == [] {
        assert n.images[..i] == images[..i] && n.images[i + 1..] == images[i + 1..];
        RunCons(n, Forget(i), []);
        RunCons(s, Untagged(i, name), [Forget(i)] + []);
        run := [Untagged(i, name)] + ([Forget(i)] + []);
      } else {
        RunCons(s, Untagged(i, name), []);
        run := [Untagged(i, name)] + [];
      }
    }
  }

  /**
   What removeImage does to the image states is a run of cleanup steps, each of which is possible only
   while no recording holds the read lock.
   */
  lemma RemovalIsRun(s: System, i: nat, docker: nat -> Reply, k: nat) returns (run: seq<Step>)
    requires Unread(s) && i < |s.images| && NoDuplicates(s.images[i].names)
    ensures CanRun(s, run) && Run(s, run) == s.(images := AfterRemoval(s.images, i, docker, k))
    ensures forall st | st in run :: st.Untagged? || st.Forget?
  {
    if s.images[i].names != [] {
      LeftEnds(s.images[i].names, docker, k);
      assert s.images[i := s.images[i]] == s.images;
      run := NamesAreRun(s, i, s.images, 0, docker, k);
    } else if Forgotten(s.images[i], docker, k) {
      RunCons(s, Forget(i), []);
      run := [Forget(i)] + [];
    } else {
      run := [];
    }
  }
}
