/**
 Concurrent recording of container references in the image manager: a lookup under the read lock,
 then, if the image is new, a second look and an insertion under the write lock.
 */
module ImageRecords {
  datatype Image = Image(id: string, names: seq<string>, containers: seq<string>, pulledAt: int, lastUsedAt: int)

  // --- image states -------------------------------------------------------------------------

  ghost predicate NoDuplicates<T>(s: seq<T>) {
    forall i, j | 0 <= i < j < |s| :: s[i] != s[j]
  }

  ghost predicate UniqueIds(images: seq<Image>) {
    forall i, j | 0 <= i < j < |images| :: images[i].id != images[j].id
  }

  /** No image repeats a name, and no two images share one. */
  ghost predicate UniqueNames(images: seq<Image>) {
    && (forall i | 0 <= i < |images| :: NoDuplicates(images[i].names))
    && (forall i, j | 0 <= i < j < |images| :: forall n | n in images[i].names :: n !in images[j].names)
  }

  /** RemoveImageName on a list without duplicates. */
  function Without(names: seq<string>, name: string): (r: seq<string>)
    ensures forall n :: n in r <==> n in names && n != name
  {
    if names == [] then []
    else (if names[0] == name then [] else [names[0]]) + Without(names[1..], name)
  }

  lemma {:induction false} WithoutKeepsDistinct(names: seq<string>, name: string)
    requires NoDuplicates(names)
    ensures NoDuplicates(Without(names, name))
  {
    if names != [] {
      WithoutKeepsDistinct(names[1..], name);
      var rest := Without(names[1..], name);
      assert names[0] !in rest;
      assert forall i | 0 <= i < |rest| :: rest[i] in rest;
    }
  }

  function AddName(names: seq<string>, name: string): seq<string> {
    if name in names then names else names + [name]
  }

  // removeExistingImageNameOfDifferentID, one image state
  function Untag(image: Image, name: string, id: string): Image {
    if image.id == id then image else image.(names := Without(image.names, name))
  }

  function UntagAll(images: seq<Image>, name: string, id: string): (r: seq<Image>)
    ensures |r| == |images| && forall i | 0 <= i < |images| :: r[i] == Untag(images[i], name, id)
  {
    seq(|images|, i requires 0 <= i < |images| => Untag(images[i], name, id))
  }

  predicate Has(images: seq<Image>, id: string) {
    exists i | 0 <= i < |images| :: images[i].id == id
  }

  /** getImageState: the first image state with this ID. */
  function Find(images: seq<Image>, id: string): (i: nat)
    requires Has(images, id)
    ensures i < |images| && images[i].id == id && forall j | 0 <= j < i :: images[j].id != id
  {
    if images[0].id == id then 0
    else
      assert Has(images[1..], id) by {
        var k :| 0 <= k < |images| && images[k].id == id;
        assert images[1..][k - 1] == images[k];
      }
      var k := Find(images[1..], id);
      assert forall j | 0 < j < 1 + k :: images[j] == images[1..][j - 1];
      1 + k
  }

  // UpdateImageState
  function Refer(images: seq<Image>, id: string, name: string, container: string): seq<Image>
    requires Has(images, id)
  {
    var i := Find(images, id);
    images[i := images[i].(names := AddName(images[i].names, name), containers := images[i].containers + [container])]
  }

  // addContainerReferenceToNewImageState, all of it under the write lock
  function Insert(images: seq<Image>, id: string, name: string, container: string, now: int): seq<Image> {
    var untagged := UntagAll(images, name, id);
    if Has(untagged, id) then Refer(untagged, id, name, container)
    else untagged + [Image(id, [name], [container], now, now)]
  }

  /** A call that nothing interrupts; a restarted agent does not add an image it does not know. */
  function Record(images: seq<Image>, id: string, name: string, container: string, now: int, restarted: bool): seq<Image> {
    var untagged := UntagAll(images, name, id);
    if Has(untagged, id) then Refer(untagged, id, name, container)
    else if restarted then untagged
    else Insert(untagged, id, name, container, now)
  }

  /** A call that nothing interrupts puts the name and the container on the image, and the name on no other. */
  lemma Recorded(images: seq<Image>, id: string, name: string, container: string, now: int, restarted: bool)
    requires UniqueIds(images)
    ensures var r := Record(images, id, name, container, now, restarted);
      && (Has(r, id) <==> Has(images, id) || !restarted)
      && |r| == |images| + (if Has(r, id) && !Has(images, id) then 1 else 0)
      && (forall i | 0 <= i < |images| && images[i].id != id ::
            r[i] == images[i].(names := r[i].names) && forall n :: n in r[i].names <==> n in images[i].names && n != name)
      && (forall i | 0 <= i < |images| && images[i].id == id ::
            && r[i] == images[i].(names := r[i].names, containers := images[i].containers + [container])
            && images[i].names <= r[i].names && forall n :: n in r[i].names <==> n in images[i].names || n == name)
      && (|r| > |images| ==> r[|images|] == Image(id, [name], [container], now, now))
      && (forall i | 0 <= i < |r| && r[i].id == id :: container in r[i].containers && name in r[i].names)
  {
    var untagged := UntagAll(images, name, id);
    if Has(images, id) {
      assert untagged[Find(images, id)].id == id;
    } else if !restarted {
      assert UntagAll(untagged, name, id) == untagged by { UntagTwice(images, name, id); }
      assert Record(images, id, name, container, now, restarted)[|images|].id == id;
    }
  }

  lemma {:induction false} WithoutAbsent(names: seq<string>, name: string)
    requires name !in names
    ensures Without(names, name) == names
  {
    if names != [] { WithoutAbsent(names[1..], name); }
  }

  lemma UntagTwice(images: seq<Image>, name: string, id: string)
    ensures UntagAll(UntagAll(images, name, id), name, id) == UntagAll(images, name, id)
  {
    var once := UntagAll(images, name, id);
    forall i | 0 <= i < |images| ensures Untag(once[i], name, id) == once[i] {
      if once[i].id != id { WithoutAbsent(once[i].names, name); }
    }
  }

  // --- interleavings --------------------------------------------------------------------------

  datatype Call = Call(id: string, name: string, container: string, restarted: bool)

  /** Untagging and Looking hold the read lock; Missed has released it and wants the write lock. */
  datatype Thread = Untagging(call: Call, at: nat) | Looking(call: Call) | Missed(call: Call)

  datatype System = System(images: seq<Image>, threads: map<nat, Thread>)

  datatype Step =
    | Begin(thread: nat, call: Call)
    | UntagOne(thread: nat)
    | Look(thread: nat)
    | InsertNew(thread: nat, now: int)
    | Forget(index: nat)                       // the cleanup cycle removes an image state
    | Untagged(index: nat, name: string)       // the cleanup cycle removes a name

  predicate Unread(s: System) {
    forall t | t in s.threads :: s.threads[t].Missed?
  }

  predicate Enabled(s: System, st: Step) {
    match st
    case Begin(t, _) => t !in s.threads
    case UntagOne(t) => t in s.threads && s.threads[t].Untagging?
    case Look(t) => t in s.threads && s.threads[t].Looking?
    case InsertNew(t, _) => t in s.threads && s.threads[t].Missed? && Unread(s)
    case Forget(i) => i < |s.images| && Unread(s)
    case Untagged(i, _) => i < |s.images| && Unread(s)
  }

  function Next(s: System, st: Step): System
    requires Enabled(s, st)
  {
    match st
    case Begin(t, call) => s.(threads := s.threads[t := Untagging(call, 0)])
    case UntagOne(t) =>
      var call := s.threads[t].call;
      var k := s.threads[t].at;
      if k < |s.images| then
        System(s.images[k := Untag(s.images[k], call.name, call.id)], s.threads[t := Untagging(call, k + 1)])
      else s.(threads := s.threads[t := Looking(call)])
    case Look(t) =>
      var call := s.threads[t].call;
      if Has(s.images, call.id) then System(Refer(s.images, call.id, call.name, call.container), s.threads - {t})
      else if call.restarted then s.(threads := s.threads - {t})
      else s.(threads := s.threads[t := Missed(call)])
    case InsertNew(t, now) =>
      var call := s.threads[t].call;
      System(Insert(s.images, call.id, call.name, call.container, now), s.threads - {t})
    case Forget(i) => s.(images := s.images[..i] + s.images[i + 1..])
    case Untagged(i, name) => s.(images := s.images[i := s.images[i].(names := Without(s.images[i].names, name))])
  }

  predicate CanRun(s: System, run: seq<Step>)
    decreases run
  {
    run == [] || (Enabled(s, run[0]) && CanRun(Next(s, run[0]), run[1..]))
  }

  function Run(s: System, run: seq<Step>): System
    requires CanRun(s, run)
    decreases run
  {
    if run == [] then s else Run(Next(s, run[0]), run[1..])
  }

  lemma RunCons(s: System, st: Step, run: seq<Step>)
    requires Enabled(s, st) && CanRun(Next(s, st), run)
    ensures CanRun(s, [st] + run) && Run(s, [st] + run) == Run(Next(s, st), run)
  {
    assert ([st] + run)[1..] == run;
  }

  lemma {:induction false} RunConcat(s: System, run: seq<Step>, more: seq<Step>)
    requires CanRun(s, run) && CanRun(Run(s, run), more)
    ensures CanRun(s, run + more) && Run(s, run + more) == Run(Run(s, run), more)
    decreases run
  {
    if run == [] {
      assert run + more == more;
    } else {
      var rest := run[1..];
      RunConcat(Next(s, run[0]), rest, more);
      RunCons(s, run[0], rest + more);
      assert [run[0]] + (rest + more) == run + more;
    }
  }

  /** The images from `at` on have lost the name. */
  function UntagFrom(images: seq<Image>, name: string, id: string, at: nat): (r: seq<Image>)
    ensures |r| == |images|
  {
    seq(|images|, i requires 0 <= i < |images| => if i < at then images[i] else Untag(images[i], name, id))
  }

  /** A reader that nothing interrupts untags the rest, looks, and inserts what is missing. */
  lemma {:induction false} ReaderIsRun(s: System, t: nat, now: int) returns (run: seq<Step>)
    requires t in s.threads && s.threads[t].Untagging? && Unread(s.(threads := s.threads - {t}))
    ensures CanRun(s, run)
    ensures var call, at := s.threads[t].call, s.threads[t].at;
      Run(s, run) == System(Finished(UntagFrom(s.images, call.name, call.id, at), call, now), s.threads - {t})
    decreases |s.images| - s.threads[t].at
  {
    var call, at := s.threads[t].call, s.threads[t].at;
    var n := Next(s, UntagOne(t));
    var rest;
    assert n.threads - {t} == s.threads - {t};
    if at < |s.images| {
      rest := ReaderIsRun(n, t, now);
      assert UntagFrom(n.images, call.name, call.id, at + 1) == UntagFrom(s.images, call.name, call.id, at);
    } else {
      assert UntagFrom(s.images, call.name, call.id, at) == s.images;
      rest := LookIsRun(n, t, now);
    }
    RunCons(s, UntagOne(t), rest);
    run := [UntagOne(t)] + rest;
  }

  /** What a call leaves once it has untagged. */
  function Finished(untagged: seq<Image>, call: Call, now: int): seq<Image> {
    if Has(untagged, call.id) then Refer(untagged, call.id, call.name, call.container)
    else if call.restarted then untagged
    else Insert(untagged, call.id, call.name, call.container, now)
  }

  lemma LookIsRun(s: System, t: nat, now: int) returns (run: seq<Step>)
    requires t in s.threads && s.threads[t].Looking? && Unread(s.(threads := s.threads - {t}))
    ensures CanRun(s, run) && Run(s, run) == System(Finished(s.images, s.threads[t].call, now), s.threads - {t})
  {
    var call, n := s.threads[t].call, Next(s, Look(t));
    if Has(s.images, call.id) || call.restarted {
      RunCons(s, Look(t), []);
      run := [Look(t)] + [];
    } else {
      assert n.threads - {t} == s.threads - {t};
      forall u | u in n.threads ensures n.threads[u].Missed? { assert u == t || u in s.threads - {t}; }
      RunCons(n, InsertNew(t, now), []);
      RunCons(s, Look(t), [InsertNew(t, now)] + []);
      run := [Look(t)] + ([InsertNew(t, now)] + []);
    }
  }

  /** A call that nothing interrupts records what Record says, and leaves the other calls as they are. */
  lemma CallIsRun(s: System, t: nat, call: Call, now: int) returns (run: seq<Step>)
    requires t !in s.threads && Unread(s)
    ensures CanRun(s, run)
    ensures Run(s, run) == System(Record(s.images, call.id, call.name, call.container, now, call.restarted), s.threads)
  {
    var n := Next(s, Begin(t, call));
    assert n.threads - {t} == s.threads;
    var rest := ReaderIsRun(n, t, now);
    assert UntagFrom(s.images, call.name, call.id, 0) == UntagAll(s.images, call.name, call.id);
    RunCons(s, Begin(t, call), rest);
    run := [Begin(t, call)] + rest;
  }

  // --- one image state per ID, in every interleaving ------------------------------------------

  lemma InsertIds(images: seq<Image>, call: Call, now: int)
    requires UniqueIds(images)
    ensures UniqueIds(Insert(images, call.id, call.name, call.container, now))
  {
    var untagged := UntagAll(images, call.name, call.id);
    assert UniqueIds(untagged);
    if !Has(untagged, call.id) { assert forall i | 0 <= i < |untagged| :: untagged[i].id != call.id; }
  }

  lemma ForgetIds(images: seq<Image>, i: nat)
    requires UniqueIds(images) && i < |images|
    ensures UniqueIds(images[..i] + images[i + 1..])
  {
  }

  lemma IdsStep(s: System, st: Step)
    requires UniqueIds(s.images) && Enabled(s, st)
    ensures UniqueIds(Next(s, st).images)
  {
    match st
    case InsertNew(t, now) => InsertIds(s.images, s.threads[t].call, now);
    case Forget(i) => ForgetIds(s.images, i);
    case _ =>
  }

  /** However calls and cleanups interleave, an image ID never gets a second image state. */
  lemma {:induction false} OneStatePerId(s: System, run: seq<Step>)
    requires UniqueIds(s.images) && CanRun(s, run)
    ensures UniqueIds(Run(s, run).images)
    decreases run
  {
    if run != [] {
      IdsStep(s, run[0]);
      OneStatePerId(Next(s, run[0]), run[1..]);
    }
  }

  // --- one image per name, unless two readers with known images disagree about it ---------------

  predicate Disagree(a: Call, b: Call) { a.name == b.name && a.id != b.id }

  /** Two calls would put a name on two images that both have a state. */
  predicate Clash(images: seq<Image>, a: Call, b: Call) { Disagree(a, b) && Has(images, a.id) && Has(images, b.id) }

  /** The name of the call is gone from the first `upTo` images with another ID. */
  ghost predicate Cleared(images: seq<Image>, call: Call, upTo: nat) {
    forall i | 0 <= i < upTo && i < |images| && images[i].id != call.id :: call.name !in images[i].names
  }

  /** A reader whose image has a state has cleared its name from the images it passed. */
  ghost predicate ThreadOK(images: seq<Image>, th: Thread) {
    match th
    case Untagging(call, at) => Has(images, call.id) ==> Cleared(images, call, at)
    case Looking(call) => Has(images, call.id) ==> Cleared(images, call, |images|)
    case Missed(_) => true
  }

  ghost predicate NoClash(s: System) {
    forall t, u | t in s.threads && u in s.threads && !s.threads[t].Missed? && !s.threads[u].Missed? ::
      !Clash(s.images, s.threads[t].call, s.threads[u].call)
  }

  ghost predicate Tidy(s: System) {
    && UniqueIds(s.images) && UniqueNames(s.images)
    && (forall t | t in s.threads :: ThreadOK(s.images, s.threads[t]))
    && NoClash(s)
  }

  /** A new call clashes with none that holds the read lock. */
  predicate Agrees(s: System, st: Step) {
    st.Begin? ==> forall t | t in s.threads && !s.threads[t].Missed? :: !Clash(s.images, st.call, s.threads[t].call)
  }

  /** Names only disappeared, one image at a time. */
  ghost predicate Shrunk(images: seq<Image>, images': seq<Image>) {
    && SameIds(images, images')
    && forall i | 0 <= i < |images| ::
         && (NoDuplicates(images[i].names) ==> NoDuplicates(images'[i].names))
         && forall n | n in images'[i].names :: n in images[i].names
  }

  ghost predicate SameIds(images: seq<Image>, images': seq<Image>) {
    |images'| == |images| && forall i | 0 <= i < |images| :: images'[i].id == images[i].id
  }

  lemma SameHas(images: seq<Image>, images': seq<Image>, id: string)
    requires SameIds(images, images')
    ensures Has(images, id) == Has(images', id)
  {
    if Has(images, id) { assert images'[Find(images, id)].id == id; }
    if Has(images', id) { assert images[Find(images', id)].id == id; }
  }

  /** The name goes to the image with the call's ID, and no other image had it. */
  lemma ReferTidy(images: seq<Image>, call: Call)
    requires UniqueIds(images) && UniqueNames(images) && Cleared(images, call, |images|) && Has(images, call.id)
    ensures UniqueIds(Refer(images, call.id, call.name, call.container))
    ensures UniqueNames(Refer(images, call.id, call.name, call.container))
  {
  }

  lemma UntagAllShrinks(images: seq<Image>, name: string, id: string)
    ensures Shrunk(images, UntagAll(images, name, id))
    ensures Cleared(UntagAll(images, name, id), Call(id, name, "", false), |images|)
  {
    forall i | 0 <= i < |images| && NoDuplicates(images[i].names) ensures NoDuplicates(UntagAll(images, name, id)[i].names) {
      WithoutKeepsDistinct(images[i].names, name);
    }
  }

  lemma InsertTidy(images: seq<Image>, call: Call, now: int)
    requires UniqueIds(images) && UniqueNames(images)
    ensures UniqueIds(Insert(images, call.id, call.name, call.container, now))
    ensures UniqueNames(Insert(images, call.id, call.name, call.container, now))
  {
    var untagged := UntagAll(images, call.name, call.id);
    UntagAllShrinks(images, call.name, call.id);
    assert UniqueNames(untagged);
    if Has(untagged, call.id) { ReferTidy(untagged, call); }
  }

  /** Calls that run one at a time keep every name with a single image. */
  lemma RecordKeepsNamesUnique(images: seq<Image>, call: Call, now: int)
    requires UniqueIds(images) && UniqueNames(images)
    ensures var r := Record(images, call.id, call.name, call.container, now, call.restarted);
            && UniqueIds(r) && UniqueNames(r)
            && (Has(r, call.id) ==> call.name in r[Find(r, call.id)].names)
            && (Has(images, call.id) || !call.restarted ==> Has(r, call.id))
  {
    var untagged := UntagAll(images, call.name, call.id);
    UntagAllShrinks(images, call.name, call.id);
    assert UniqueNames(untagged);
    if Has(images, call.id) { assert untagged[Find(images, call.id)].id == call.id; }
    if Has(untagged, call.id) {
      ReferTidy(untagged, call);
      FoundAfter(untagged, call);
    } else if !call.restarted {
      InsertTidy(untagged, call, now);
      var again := UntagAll(untagged, call.name, call.id);
      assert !Has(again, call.id) by { assert forall i | 0 <= i < |again| :: again[i].id == untagged[i].id; }
      var r := Insert(untagged, call.id, call.name, call.container, now);
      assert r[|again|].id == call.id;
      assert Find(r, call.id) == |again| by { assert forall i | 0 <= i < |again| :: r[i].id != call.id; }
    }
  }

  lemma FoundAfter(images: seq<Image>, call: Call)
    requires UniqueIds(images) && Has(images, call.id)
    ensures var r := Refer(images, call.id, call.name, call.container);
            Has(r, call.id) && call.name in r[Find(r, call.id)].names
  {
    var i := Find(images, call.id);
    var r := Refer(images, call.id, call.name, call.container);
    assert r[i].id == call.id;
    assert Find(r, call.id) == i;
  }

  /** Thread t moves on; the images lose names or give the call's name to its own image. */
  lemma ThreadsStillOK(s: System, s': System, t: nat, call: Call)
    requires Tidy(s) && t in s.threads && s.threads[t].call == call && !s.threads[t].Missed?
    requires SameIds(s.images, s'.images) && s'.threads - {t} == s.threads - {t}
    requires t in s'.threads ==> s'.threads[t].call == call && ThreadOK(s'.images, s'.threads[t])
    requires forall i, n | 0 <= i < |s.images| && n in s'.images[i].names ::
               n in s.images[i].names || (n == call.name && s.images[i].id == call.id)
    ensures forall u | u in s'.threads :: ThreadOK(s'.images, s'.threads[u])
    ensures NoClash(s')
  {
    forall u | u in s'.threads && u != t ensures u in s.threads && s'.threads[u] == s.threads[u] {
      assert u in s'.threads - {t};
    }
    forall u | u in s'.threads ensures ThreadOK(s'.images, s'.threads[u]) {
      if u != t {
        assert ThreadOK(s.images, s.threads[u]);
        ReaderStillOK(s.images, s'.images, s.threads[u], call);
      }
    }
    forall u, v | u in s'.threads && v in s'.threads && !s'.threads[u].Missed? && !s'.threads[v].Missed?
      ensures !Clash(s'.images, s'.threads[u].call, s'.threads[v].call)
    {
      SameHas(s.images, s'.images, s'.threads[u].call.id);
      SameHas(s.images, s'.images, s'.threads[v].call.id);
    }
  }

  /** A reader is not disturbed by a call it does not clash with. */
  lemma ReaderStillOK(images: seq<Image>, images': seq<Image>, th: Thread, call: Call)
    requires ThreadOK(images, th) && SameIds(images, images')
    requires th.Missed? || !Clash(images, th.call, call)
    requires forall i, n | 0 <= i < |images| && n in images'[i].names ::
               n in images[i].names || (n == call.name && images[i].id == call.id)
    ensures ThreadOK(images', th)
  {
    SameHas(images, images', th.call.id);
    if !Has(images, call.id) { assert forall i | 0 <= i < |images| :: images[i].id != call.id; }
  }

  lemma UntagOneTidy(s: System, t: nat)
    requires Tidy(s) && Enabled(s, UntagOne(t))
    ensures Tidy(Next(s, UntagOne(t)))
  {
    var s' := Next(s, UntagOne(t));
    var call, k := s.threads[t].call, s.threads[t].at;
    assert ThreadOK(s.images, s.threads[t]);
    if k < |s.images| {
      WithoutKeepsDistinct(s.images[k].names, call.name);
      assert Shrunk(s.images, s'.images);
      SameHas(s.images, s'.images, call.id);
      assert Has(s.images, call.id) ==> Cleared(s'.images, call, k + 1);
    }
    assert s'.threads - {t} == s.threads - {t};
    ThreadsStillOK(s, s', t, call);
  }

  lemma LookTidy(s: System, t: nat)
    requires Tidy(s) && Enabled(s, Look(t))
    ensures Tidy(Next(s, Look(t)))
  {
    var s' := Next(s, Look(t));
    var call := s.threads[t].call;
    assert ThreadOK(s.images, s.threads[t]);
    if Has(s.images, call.id) { ReferTidy(s.images, call); }
    assert s'.threads - {t} == s.threads - {t};
    ThreadsStillOK(s, s', t, call);
  }

  /** Under the write lock there are no readers. */
  lemma UnreadTidy(s: System)
    requires Unread(s) && UniqueIds(s.images) && UniqueNames(s.images)
    ensures Tidy(s)
  {
  }

  lemma TidyStep(s: System, st: Step)
    requires Tidy(s) && Enabled(s, st) && Agrees(s, st)
    ensures Tidy(Next(s, st))
  {
    var s' := Next(s, st);
    match st
    case Begin(t, call) => BeginTidy(s, t, call);
    case UntagOne(t) => UntagOneTidy(s, t);
    case Look(t) => LookTidy(s, t);
    case InsertNew(t, now) =>
      InsertTidy(s.images, s.threads[t].call, now);
      UnreadTidy(s');
    case Forget(i) =>
      ForgetNames(s.images, i);
      UnreadTidy(s');
    case Untagged(i, name) =>
      WithoutKeepsDistinct(s.images[i].names, name);
      UnreadTidy(s');
  }

  lemma BeginTidy(s: System, t: nat, call: Call)
    requires Tidy(s) && Enabled(s, Begin(t, call)) && Agrees(s, Begin(t, call))
    ensures Tidy(Next(s, Begin(t, call)))
  {
    var s' := Next(s, Begin(t, call));
    forall u | u in s'.threads ensures ThreadOK(s'.images, s'.threads[u]) {
      if u != t { assert ThreadOK(s.images, s.threads[u]); }
    }
    assert !Clash(s.images, call, call);
  }

  lemma ForgetNames(images: seq<Image>, i: nat)
    requires UniqueIds(images) && UniqueNames(images) && i < |images|
    ensures var r := images[..i] + images[i + 1..]; UniqueIds(r) && UniqueNames(r)
  {
    ForgetIds(images, i);
    var r := images[..i] + images[i + 1..];
    assert forall j | 0 <= j < |r| :: r[j] == images[if j < i then j else j + 1];
  }

  ghost predicate AlwaysAgrees(s: System, run: seq<Step>)
    requires CanRun(s, run)
    decreases run
  {
    run == [] || (Agrees(s, run[0]) && AlwaysAgrees(Next(s, run[0]), run[1..]))
  }

  /**
   As long as no call begins that clashes with a reader, that is, names another image with a state
   for the same name, a name never gets a second image.
   */
  lemma {:induction false} OneImagePerName(s: System, run: seq<Step>)
    requires Tidy(s) && CanRun(s, run) && AlwaysAgrees(s, run)
    ensures Tidy(Run(s, run))
    decreases run
  {
    if run != [] {
      TidyStep(s, run[0]);
      OneImagePerName(Next(s, run[0]), run[1..]);
    }
  }

  /** Two disagreeing calls that both hold the read lock leave the name with both images. */
  lemma DisagreementDuplicates(s: System, t: nat, u: nat)
    requires UniqueIds(s.images) && t in s.threads && u in s.threads
    requires s.threads[t].Looking? && s.threads[u].Looking? && Disagree(s.threads[t].call, s.threads[u].call)
    requires Has(s.images, s.threads[t].call.id) && Has(s.images, s.threads[u].call.id)
    ensures CanRun(s, [Look(t), Look(u)]) && !UniqueNames(Run(s, [Look(t), Look(u)]).images)
  {
    var a, b := s.threads[t].call, s.threads[u].call;
    var i, j := Find(s.images, a.id), Find(s.images, b.id);
    var s1 := Next(s, Look(t));
    assert Has(s1.images, b.id) && Find(s1.images, b.id) == j by { assert s1.images[j].id == b.id; }
    var s2 := Next(s1, Look(u));
    assert [Look(t), Look(u)][1..] == [Look(u)] && [Look(u)][1..] == [];
    assert a.name in s2.images[i].names && a.name in s2.images[j].names;
    assert Run(s, [Look(t), Look(u)]) == Run(s1, [Look(u)]) == s2;
    var lo, hi := if i < j then i else j, if i < j then j else i;
    assert 0 <= lo < hi < |s2.images| && !(forall n | n in s2.images[lo].names :: n !in s2.images[hi].names);
  }

  // --- the condition is exact ---------------------------------------------------------------------

  /** A reader can go through all images and get to its lookup; nothing but names changes. */
  lemma {:induction false} GetsToLook(s: System, t: nat) returns (run: seq<Step>)
    requires t in s.threads && !s.threads[t].Missed?
    ensures CanRun(s, run) && SameIds(s.images, Run(s, run).images)
    ensures Run(s, run).threads == s.threads[t := Looking(s.threads[t].call)]
    decreases if s.threads[t].Looking? then 0 else if s.threads[t].at < |s.images| then 2 + |s.images| - s.threads[t].at else 1
  {
    if s.threads[t].Looking? {
      run := [];
      assert s.threads[t := s.threads[t]] == s.threads;
    } else {
      var s' := Next(s, UntagOne(t));
      var rest := GetsToLook(s', t);
      run := [UntagOne(t)] + rest;
      assert run[1..] == rest;
      assert s'.threads[t := Looking(s.threads[t].call)] == s.threads[t := Looking(s.threads[t].call)];
    }
  }

  /** Whenever a call begins that clashes with a reader, there is a run that leaves its name on two images. */
  lemma ClashDuplicates(s: System, t: nat, call: Call) returns (run: seq<Step>)
    requires Tidy(s) && Enabled(s, Begin(t, call)) && !Agrees(s, Begin(t, call))
    ensures run != [] && run[0] == Begin(t, call) && CanRun(s, run) && !UniqueNames(Run(s, run).images)
  {
    var u :| u in s.threads && !s.threads[u].Missed? && Clash(s.images, call, s.threads[u].call);
    var s1 := Next(s, Begin(t, call));
    var first := GetsToLook(s1, t);
    var s2 := Run(s1, first);
    var second := GetsToLook(s2, u);
    var s3 := Run(s2, second);
    assert SameIds(s.images, s3.images);
    SameHas(s.images, s3.images, call.id);
    SameHas(s.images, s3.images, s.threads[u].call.id);
    assert s3.threads[t] == Looking(call) && s3.threads[u] == Looking(s.threads[u].call);
    DisagreementDuplicates(s3, t, u);
    RunConcat(s2, second, [Look(t), Look(u)]);
    RunConcat(s1, first, second + [Look(t), Look(u)]);
    run := [Begin(t, call)] + (first + (second + [Look(t), Look(u)]));
    assert run[1..] == first + (second + [Look(t), Look(u)]);
  }
}
