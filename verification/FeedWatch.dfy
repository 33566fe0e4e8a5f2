/** The feed watch of the legacy line: the queue belt may be left running between calls,
    and only the junction eye's history cuts it. A watch is armed by one call and
    advanced by others, so its chain of edges is split over many poll loops. */
module FeedWatch {
  import opened Model

  // ------------------------------------------------------------ edge chains

  /** What is left of a chain of wanted levels after one reading. */
  function Next(chain: seq<bool>, reading: bool): seq<bool> {
    if chain != [] && chain[0] == reading then chain[1..] else chain
  }

  /** What is left after a whole history, each reading matched greedily. */
  function Left(chain: seq<bool>, history: seq<bool>): seq<bool>
    decreases |history|
  {
    if history == [] then chain else Next(Left(chain, history[..|history| - 1]), history[|history| - 1])
  }

  /** The history contains the chain's levels, in order, with anything in between. */
  predicate Contains(history: seq<bool>, chain: seq<bool>)
    decreases |history|
  {
    chain == [] ||
    (history != [] &&
     (Contains(history[..|history| - 1], chain)
      || (history[|history| - 1] == chain[|chain| - 1] && Contains(history[..|history| - 1], chain[..|chain| - 1]))))
  }

  lemma {:induction false} ContainsShorter(history: seq<bool>, chain: seq<bool>, n: nat)
    requires Contains(history, chain) && n <= |chain|
    ensures Contains(history, chain[..n])
    decreases |history|
  {
    if n > 0 && n < |chain| {
      var before, last := history[..|history| - 1], |chain| - 1;
      if Contains(before, chain) {
        ContainsShorter(before, chain, n);
      } else {
        ContainsShorter(before, chain[..last], n);
        assert chain[..last][..n] == chain[..n];
      }
    } else {
      assert n == |chain| ==> chain[..n] == chain;
    }
  }

  /** Greedy matching is exact: after any history the chain stands at the longest
      prefix the history contains. */
  lemma {:induction false} GreedyIsExact(chain: seq<bool>, history: seq<bool>)
    ensures
      var left := Left(chain, history);
      && |left| <= |chain| && left == chain[|chain| - |left|..]
      && (forall n: nat :: n <= |chain| ==> (Contains(history, chain[..n]) <==> n <= |chain| - |left|))
    decreases |history|
  {
    if history == [] {
      assert forall n: nat :: n <= |chain| ==> (chain[..n] == [] <==> n == 0);
    } else {
      var before, reading := history[..|history| - 1], history[|history| - 1];
      GreedyIsExact(chain, before);
      var m := |chain| - |Left(chain, before)|;
      forall n: nat | n <= |chain| ensures Contains(history, chain[..n]) <==> n <= |chain| - |Left(chain, history)| {
        OneReading(chain, before, reading, m, n);
      }
    }
  }

  lemma OneReading(chain: seq<bool>, before: seq<bool>, reading: bool, m: nat, n: nat)
    requires m <= |chain| && n <= |chain|
    requires forall k: nat :: k <= |chain| ==> (Contains(before, chain[..k]) <==> k <= m)
    ensures Contains(before + [reading], chain[..n]) <==>
      n <= if m < |chain| && chain[m] == reading then m + 1 else m
  {
    var history := before + [reading];
    assert history[..|history| - 1] == before && history[|history| - 1] == reading;
    if n > 0 {
      assert chain[..n][..n - 1] == chain[..n - 1] && chain[..n][n - 1] == chain[n - 1];
    }
  }

  /** The chain is used up exactly when the history contains it. */
  lemma DoneIffContained(chain: seq<bool>, history: seq<bool>)
    ensures Left(chain, history) == [] <==> Contains(history, chain)
  {
    GreedyIsExact(chain, history);
    assert chain[..|chain|] == chain;
  }

  lemma LeftAppends(chain: seq<bool>, history: seq<bool>, reading: bool)
    ensures Left(chain, history + [reading]) == Next(Left(chain, history), reading)
  {
    var longer := history + [reading];
    assert longer[..|longer| - 1] == history;
  }

  // ------------------------------------------------------------- one watch

  /** One thing after another. */
  function Fold<S, C>(f: (S, C) -> S, s: S, cs: seq<C>): S
    decreases |cs|
  {
    if cs == [] then s else f(Fold(f, s, cs[..|cs| - 1]), cs[|cs| - 1])
  }

  lemma FoldGrows<S, C>(f: (S, C) -> S, s: S, cs: seq<C>, c: C)
    ensures Fold(f, s, cs + [c]) == f(Fold(f, s, cs), c)
  {
    var longer := cs + [c];
    assert longer[..|longer| - 1] == cs;
  }

  lemma {:induction false} FoldSplits<S, C>(f: (S, C) -> S, s: S, a: seq<C>, b: seq<C>)
    ensures Fold(f, s, a + b) == Fold(f, Fold(f, s, a), b)
    decreases |b|
  {
    if b == [] {
      assert a + b == a;
    } else {
      var init, last := b[..|b| - 1], b[|b| - 1];
      FoldSplits(f, s, a, init);
      FoldGrows(f, s, a + init, last);
      assert a + b == (a + init) + [last];
    }
  }

  /** A follower's nose, the tail of the part before it, and the nose again. */
  const Junction: seq<bool> := [true, false, true]

  /** A watch as it stands: the coil, what is left of its chain, and what the junction
      eye has shown, poll by poll, since it was armed. */
  datatype Watch = Watch(on: bool, phases: seq<bool>, history: seq<bool>)

  /** The coil is on only under a live watch, and the watch stands where its history
      puts it. */
  predicate Sound(w: Watch) {
    (w.on ==> w.phases != []) && (w.phases != [] ==> w.phases == Left(Junction, w.history))
  }

  /** If the eye already shows a part, that part is the one on it and the chain starts
      mid-way. */
  function Armed(onload: bool): Watch {
    Watch(true, if onload then [false, true] else [true, false, true], [onload])
  }

  function Poll(w: Watch, onload: bool): Watch {
    if w.phases == [] then w
    else
      var left := Next(w.phases, onload);
      Watch(w.on && left != [], left, w.history + [onload])
  }

  function Polls(w: Watch, onloads: seq<bool>): Watch {
    Fold(Poll, w, onloads)
  }

  lemma PollsGrow(w: Watch, onloads: seq<bool>, onload: bool)
    ensures Polls(w, onloads + [onload]) == Poll(Polls(w, onloads), onload)
  {
    FoldGrows(Poll, w, onloads, onload);
  }

  /** It does not matter over how many calls the polls are split. */
  lemma PollsSplit(w: Watch, a: seq<bool>, b: seq<bool>)
    ensures Polls(w, a + b) == Polls(Polls(w, a), b)
  {
    FoldSplits(Poll, w, a, b);
  }

  lemma ArmedIsSound(onload: bool)
    ensures Sound(Armed(onload)) && Armed(onload).phases != []
  {
    LeftAppends(Junction, [], onload);
  }

  lemma PollIsSound(w: Watch, onload: bool)
    requires Sound(w)
    ensures Sound(Poll(w, onload))
    ensures w.phases != [] ==> (Poll(w, onload).phases == [] <==> Contains(w.history + [onload], Junction))
  {
    LeftAppends(Junction, w.history, onload);
    DoneIffContained(Junction, w.history + [onload]);
  }

  /** A live watch after any polls: its history has taken in every reading up to the
      first that completes the pattern and no more, and the coil is cut there. */
  predicate CutAtFirst(w: Watch, v: Watch, onloads: seq<bool>) {
    && Sound(v) && FirstCut(w.history, v.history, onloads)
    && (v.phases == [] <==> Contains(v.history, Junction))
    && v.on == (w.on && v.phases != [])
  }

  lemma PollCuts(w: Watch, v: Watch, onloads: seq<bool>, onload: bool)
    requires CutAtFirst(w, v, onloads)
    ensures CutAtFirst(w, Poll(v, onload), onloads + [onload])
  {
    PollIsSound(v, onload);
    if v.phases != [] {
      CutGrows(w.history, v.history, onloads, onload);
    } else {
      CutStays(w.history, v.history, onloads, onload);
    }
  }

  lemma NoPolls(w: Watch)
    requires Sound(w) && w.phases != []
    ensures CutAtFirst(w, w, [])
  {
    DoneIffContained(Junction, w.history);
  }

  lemma {:induction false} PollsCutAtFirst(w: Watch, onloads: seq<bool>)
    requires Sound(w)
    ensures if w.phases == [] then Polls(w, onloads) == w else CutAtFirst(w, Polls(w, onloads), onloads)
    decreases |onloads|
  {
    if onloads != [] {
      var init, last := onloads[..|onloads| - 1], onloads[|onloads| - 1];
      assert onloads == init + [last];
      PollsCutAtFirst(w, init);
      PollsGrow(w, init, last);
      if w.phases != [] {
        PollCuts(w, Polls(w, init), init, last);
      }
    } else if w.phases != [] {
      NoPolls(w);
    }
  }

  /** The history has grown by the readings up to and including the first that
      completes the junction pattern, and by no more. */
  predicate FirstCut(before: seq<bool>, after: seq<bool>, readings: seq<bool>) {
    && |before| <= |after| <= |before| + |readings|
    && after == before + readings[..|after| - |before|]
    && (|after| < |before| + |readings| ==> Contains(after, Junction))
    && (forall k :: |before| <= k < |after| ==> !Contains(after[..k], Junction))
  }

  lemma CutGrows(before: seq<bool>, after: seq<bool>, readings: seq<bool>, onload: bool)
    requires FirstCut(before, after, readings) && !Contains(after, Junction)
    ensures FirstCut(before, after + [onload], readings + [onload])
  {
    var longer := after + [onload];
    forall k | |before| <= k < |longer| ensures !Contains(longer[..k], Junction) {
      assert longer[..k] == if k < |after| then after[..k] else after;
    }
  }

  lemma CutStays(before: seq<bool>, after: seq<bool>, readings: seq<bool>, onload: bool)
    requires FirstCut(before, after, readings) && Contains(after, Junction)
    ensures FirstCut(before, after, readings + [onload])
  {
  }

  // ------------------------------------------------------------------ calls

  /** What one pass of a poll loop reads. */
  datatype Reading = Reading(onload: bool, staging: bool, workZero: bool, ready: bool)

  datatype StopAt = Nowhere | WorkZero(oOccupied: bool, passThrough: bool) | Staging

  /** The levels the work-zero eye must show before the belt is stopped. */
  function WorkZeroChain(stop: StopAt): seq<bool> {
    if !stop.WorkZero? then []
    else
      (if stop.oOccupied then [true, false] else []) + [true] + (if stop.passThrough then [false] else [])
  }

  /** What ends a poll loop before its readings run out. */
  datatype Until = Ready | Staged | StagedOrReady

  predicate Halts(u: Until, r: Reading) {
    match u
    case Ready => r.ready
    case Staged => r.staging
    case StagedOrReady => r.staging || r.ready
  }

  /** The passes made: up to and including the first that ends the loop. */
  function UpTo(u: Until, readings: seq<Reading>): (seen: seq<Reading>)
    ensures |seen| <= |readings| && seen == readings[..|seen|]
    ensures forall i :: 0 <= i < |seen| - 1 ==> !Halts(u, readings[i])
    ensures |seen| < |readings| ==> Ended(u, seen)
  {
    if readings == [] then []
    else if Halts(u, readings[0]) then [readings[0]]
    else [readings[0]] + UpTo(u, readings[1..])
  }

  predicate Ended(u: Until, seen: seq<Reading>) {
    seen != [] && Halts(u, seen[|seen| - 1])
  }

  lemma {:induction false} UpToIs(u: Until, readings: seq<Reading>, n: nat)
    requires n <= |readings| && forall i :: 0 <= i < n - 1 ==> !Halts(u, readings[i])
    requires n < |readings| ==> n > 0 && Halts(u, readings[n - 1])
    ensures UpTo(u, readings) == readings[..n]
  {
    if readings != [] && !Halts(u, readings[0]) {
      UpToIs(u, readings[1..], n - 1);
      assert [readings[0]] + readings[1..][..n - 1] == readings[..n];
    }
  }

  /** Everything a driver can be asked that touches the watch. */
  datatype Call =
    | FeedTickCall(onload: bool)
    | FeedStopCall
    | SuspendCall
    | ResumeCall
    | BlindCall(distance: real)
    | CompositeCall(ok: bool)
    | TransitionCall(stop: StopAt, feed: bool, arming: bool, readings: seq<Reading>, tail: seq<Reading>)
    | StageCall(arming: bool, bulk: seq<Reading>, nudge: bool, nudging: seq<Reading>)

  /** The downstream re-approach happens after an upstream pass that arrived. */
  predicate Reapproaches(stop: StopAt, readings: seq<Reading>) {
    stop.WorkZero? && stop.passThrough && Ended(Ready, UpTo(Ready, readings)) && Arrives(stop, UpTo(Ready, readings))
  }

  /** The junction readings a call takes, in order. */
  function PolledBy(c: Call): seq<bool> {
    match c
    case FeedTickCall(onload) => [onload]
    case TransitionCall(stop, feed, arming, readings, tail) =>
      Onloads(UpTo(Ready, readings)) + if !feed && Reapproaches(stop, readings) then Onloads(UpTo(Ready, tail)) else []
    case StageCall(arming, bulk, nudge, nudging) =>
      Onloads(UpTo(Staged, bulk)) + if Nudges(bulk, nudge) then Onloads(UpTo(StagedOrReady, nudging)) else []
    case _ => []
  }

  /** The maneuver ends with its part where it was wanted. */
  predicate TransitionArrives(stop: StopAt, readings: seq<Reading>, tail: seq<Reading>) {
    && Ended(Ready, UpTo(Ready, readings)) && Arrives(stop, UpTo(Ready, readings))
    && (Reapproaches(stop, readings) ==> Shown(UpTo(Ready, tail)))
  }

  /** The work-zero eye has shown a part. */
  predicate Shown(seen: seq<Reading>) {
    exists r :: r in seen && r.workZero
  }

  lemma ShownGrows(readings: seq<Reading>, i: nat)
    requires i < |readings|
    ensures Shown(readings[..i + 1]) == (Shown(readings[..i]) || readings[i].workZero)
  {
    assert readings[..i + 1] == readings[..i] + [readings[i]];
    if Shown(readings[..i]) {
      var x :| x in readings[..i] && x.workZero;
      assert x in readings[..i + 1];
    }
    if readings[i].workZero {
      assert readings[i] in readings[..i + 1];
    }
  }

  lemma PassGrows(w: Watch, readings: seq<Reading>, i: nat)
    requires i < |readings|
    ensures Polls(w, Onloads(readings[..i + 1])) == Poll(Polls(w, Onloads(readings[..i])), readings[i].onload)
  {
    assert readings[..i + 1] == readings[..i] + [readings[i]];
    ReadingsGrow(readings[..i], readings[i]);
    PollsGrow(w, Onloads(readings[..i]), readings[i].onload);
  }

  predicate Nudges(bulk: seq<Reading>, nudge: bool) {
    nudge && !Ended(Staged, UpTo(Staged, bulk))
  }

  function Dark(w: Watch): Watch {
    w.(on := false)
  }

  function Cancelled(w: Watch): Watch {
    Watch(false, [], w.history)
  }

  function Lit(w: Watch): Watch {
    if w.phases != [] then w.(on := true) else w
  }

  /** Where a call leaves the watch. */
  function After(w: Watch, c: Call): Watch {
    match c
    case FeedTickCall(onload) => Poll(w, onload)
    case FeedStopCall => Cancelled(w)
    case SuspendCall => if w.phases != [] then Dark(w) else w
    case ResumeCall => Lit(w)
    case BlindCall(distance) => if distance > 1.0 then Lit(w) else w
    case CompositeCall(ok) => if ok then Lit(w) else Cancelled(w)
    case TransitionCall(stop, feed, arming, readings, tail) =>
      if !feed then Polls(w, PolledBy(c))
      else
        var v := Polls(Armed(arming), PolledBy(c));
        if stop.Staging? && Ended(Ready, UpTo(Ready, readings)) then v else Cancelled(v)
    case StageCall(arming, bulk, nudge, nudging) => Polls(Armed(arming), PolledBy(c))
  }

  // ------------------------------------------------------------- the driver

  class LegacyDriver {
    var feedOn: bool
    var feedPhases: seq<bool>
    /** What the junction eye has shown, poll by poll, since the watch was armed. */
    ghost var history: seq<bool>

    ghost function State(): Watch
      reads this
    {
      Watch(feedOn, feedPhases, history)
    }

    ghost predicate Valid()
      reads this
    {
      Sound(State())
    }

    constructor ()
      ensures Valid() && !feedOn && feedPhases == []
    {
      feedOn, feedPhases, history := false, [], [];
    }

    method SetFeed(on: bool)
      modifies this`feedOn
      ensures feedOn == on
    {
      feedOn := on;
    }

    /** One poll of a live watch; the coil is cut at the first poll whose history
        contains the junction pattern. */
    method FeedTick(onload: bool) returns (cut: Option<bool>)
      modifies this
      ensures State() == After(old(State()), FeedTickCall(onload))
      ensures cut == if old(feedPhases) == [] then None else Some(feedPhases == [])
      ensures old(Valid()) && cut.Some? ==> cut.value == Contains(history, Junction)
    {
      PollIsNext(State(), onload);
      if feedPhases == [] { return None; }
      history := history + [onload];
      if feedPhases[0] == onload {
        feedPhases := feedPhases[1..];
        if feedPhases == [] {
          SetFeed(false);
          return Some(true);
        }
      }
      cut := Some(false);
    }

    method FeedStop()
      modifies this
      ensures State() == After(old(State()), FeedStopCall)
    {
      feedPhases := [];
      SetFeed(false);
    }

    /** Pause a live watch for a long span nothing polls; the coil is then off. */
    method FeedSuspend() returns (paused: bool)
      modifies this`feedOn
      ensures State() == After(old(State()), SuspendCall) && paused == (old(feedPhases) != [])
      ensures old(Valid()) ==> !feedOn
    {
      paused := feedPhases != [];
      if paused { SetFeed(false); }
    }

    method FeedResume()
      modifies this`feedOn
      ensures State() == After(old(State()), ResumeCall)
    {
      if feedPhases != [] { SetFeed(true); }
    }

    /** A blind shuffle suspends a live watch while the main belt moves. */
    method Blind(distance: real) returns (coil: bool)
      modifies this`feedOn
      ensures State() == After(old(State()), BlindCall(distance))
      ensures old(Valid()) && distance > 1.0 ==> !coil
    {
      coil := feedOn;
      if distance > 1.0 {
        var resume := feedPhases != [];
        if resume { SetFeed(false); }
        coil := feedOn;
        if resume { SetFeed(true); }
      }
    }

    /** The robot composite between suspend and resume; a failure idles everything.
        Returns the coil as it was while the robot worked. */
    method Composite(ok: bool) returns (coil: bool)
      modifies this
      ensures State() == After(old(State()), CompositeCall(ok))
      ensures old(Valid()) ==> !coil
    {
      var resume := FeedSuspend();
      coil := feedOn;
      if !ok {
        FeedStop();
        return;
      }
      if resume { FeedResume(); }
    }

    /** The watch a maneuver polls: its own chain, or the one it inherits. */
    ghost function Hunt(feed: bool, own: seq<bool>): Watch
      reads this
    {
      if feed then Watch(feedOn, own, history) else State()
    }

    /** One poll of a maneuver's own chain, its coil cut when the chain is used up. */
    method ChainTick(own: seq<bool>, onload: bool) returns (left: seq<bool>)
      requires own != []
      modifies this`feedOn, this`history
      ensures Hunt(true, left) == Poll(old(Hunt(true, own)), onload)
    {
      history := history + [onload];
      left := own;
      if own[0] == onload {
        left := own[1..];
        if left == [] { SetFeed(false); }
      }
    }

    /** Arm a maneuver's own chain. */
    method Arm(onload: bool) returns (own: seq<bool>)
      modifies this
      ensures feedPhases == [] && Hunt(true, own) == Armed(onload)
    {
      feedPhases := [];
      SetFeed(true);
      history := [onload];
      own := if onload then [false, true] else [true, false, true];
    }

    /** One pass over the stop sensors: what is left of the work-zero chain, and
        whether the maneuver has arrived. */
    method StopTick(stop: StopAt, wz: seq<bool>, arrived: bool, ghost passed: seq<Reading>, r: Reading)
      returns (left: seq<bool>, now: bool)
      requires StopFits(stop, wz, arrived, passed)
      ensures StopFits(stop, left, now, passed + [r])
    {
      StopGrows(stop, wz, arrived, passed, r);
      left, now := wz, arrived;
      if wz != [] && wz[0] == r.workZero {
        left := wz[1..];
        if left == [] { now := true; }
      }
      if stop.Staging? && !now && r.staging { now := true; }
    }

    /** One pass over the junction eye, for the maneuver's own chain or an inherited one. */
    method JunctionTick(feed: bool, own: seq<bool>, onload: bool) returns (left: seq<bool>)
      requires if feed then feedPhases == [] else own == []
      modifies this
      ensures if feed then feedPhases == [] else left == []
      ensures Hunt(feed, left) == Poll(old(Hunt(feed, own)), onload)
    {
      left := own;
      if own != [] {
        left := ChainTick(own, onload);
      } else if feedPhases != [] {
        var cut := FeedTick(onload);
      }
    }

    /** The main loop of a transition: passes until the belt reports ready, or none are
        left before the deadline. The watch has polled every pass, and the arrival is
        what the stop sensor showed over them. */
    method Watchful(stop: StopAt, feed: bool, own0: seq<bool>, readings: seq<Reading>)
      returns (own: seq<bool>, arrived: bool, ready: bool)
      requires if feed then feedPhases == [] else own0 == []
      modifies this
      ensures if feed then feedPhases == [] else own == []
      ensures Hunt(feed, own) == Polls(old(Hunt(feed, own0)), Onloads(UpTo(Ready, readings)))
      ensures arrived == Arrives(stop, UpTo(Ready, readings)) == EyeShows(stop, UpTo(Ready, readings))
      ensures ready == Ended(Ready, UpTo(Ready, readings))
    {
      own, arrived, ready := own0, false, false;
      var wz := WorkZeroChain(stop);
      StopStarts(stop);
      assert Onloads(readings[..0]) == [] && readings[..0] == [];
      var i := 0;
      while i < |readings| && !ready
        invariant i <= |readings| && if feed then feedPhases == [] else own == []
        invariant Hunt(feed, own) == Polls(old(Hunt(feed, own0)), Onloads(readings[..i]))
        invariant StopFits(stop, wz, arrived, readings[..i])
        invariant forall k :: 0 <= k < i - 1 ==> !readings[k].ready
        invariant ready == (i > 0 && readings[i - 1].ready)
        decreases |readings| - i
      {
        assert readings[..i + 1] == readings[..i] + [readings[i]];
        PassGrows(old(Hunt(feed, own0)), readings, i);
        wz, arrived := StopTick(stop, wz, arrived, readings[..i], readings[i]);
        own := JunctionTick(feed, own, readings[i].onload);
        ready, i := readings[i].ready, i + 1;
      }
      UpToIs(Ready, readings, i);
      ArrivesMeans(stop, UpTo(Ready, readings));
    }

    /** One poll of an inherited watch; a maneuver's own chain is not polled here. */
    method InheritedTick(feed: bool, onload: bool)
      modifies this
      ensures State() == if feed then old(State()) else Poll(old(State()), onload)
    {
      if !feed && feedPhases != [] {
        var cut := FeedTick(onload);
      }
    }

    /** The downstream re-approach after an upstream pass; an inherited watch is still
        polled at every pass, and running out of passes is no failure here. */
    method Reapproach(feed: bool, tail: seq<Reading>) returns (arrived: bool)
      modifies this
      ensures State() == if feed then old(State()) else Polls(old(State()), Onloads(UpTo(Ready, tail)))
      ensures arrived == Shown(UpTo(Ready, tail))
    {
      arrived := false;
      assert Onloads(tail[..0]) == [];
      var i, ready := 0, false;
      while i < |tail| && !ready
        invariant i <= |tail| && arrived == Shown(tail[..i])
        invariant State() == if feed then old(State()) else Polls(old(State()), Onloads(tail[..i]))
        invariant forall k :: 0 <= k < i - 1 ==> !tail[k].ready
        invariant ready == (i > 0 && tail[i - 1].ready)
        decreases |tail| - i
      {
        PassGrows(old(State()), tail, i);
        ShownGrows(tail, i);
        if tail[i].workZero { arrived := true; }
        InheritedTick(feed, tail[i].onload);
        ready, i := tail[i].ready, i + 1;
      }
      UpToIs(Ready, tail, i);
    }

    /** One transition of the belt. The queue belt is left running behind it in one case
        only, an intake that parked its part before a follower showed; its watch is then
        handed over with everything its eye has shown so far. */
    method TransitionMove(stop: StopAt, feed: bool, arming: bool, readings: seq<Reading>, tail: seq<Reading>)
      returns (arrived: bool, timedOut: bool)
      modifies this
      ensures State() == After(old(State()), TransitionCall(stop, feed, arming, readings, tail))
      ensures arrived == PartIsThere(stop, readings, tail)
      ensures timedOut <==> forall r :: r in readings ==> !r.ready
    {
      TransitionArrivesMeans(stop, readings, tail);
      var own: seq<bool> := [];
      if feed { own := Arm(arming); }
      var ready;
      own, arrived, ready := Watchful(stop, feed, own, readings);
      timedOut := !ready;
      OwnAfter(stop, arming, readings, tail);
      InheritedAfter(old(State()), stop, arming, readings, tail);
      if timedOut {
        if feed && feedPhases == [] { SetFeed(false); }
        return false, true;
      }
      if stop.WorkZero? && stop.passThrough && arrived {
        arrived := Reapproach(feed, tail);
      }
      if feed && own != [] && stop.Staging? { feedPhases := own; }
      if feed && feedPhases == [] { SetFeed(false); }
    }

    /** Staging: feed until the staging eye shows or the readings run out, then nudge.
        Whatever is left of the chain is handed over, the coil still on. */
    method StageNext(arming: bool, bulk: seq<Reading>, nudge: bool, nudging: seq<Reading>)
      returns (staged: bool, nudged: bool)
      modifies this
      ensures State() == After(old(State()), StageCall(arming, bulk, nudge, nudging))
      ensures nudged <==> nudge && forall r :: r in bulk ==> !r.staging
      ensures staged == (Ended(Staged, UpTo(Staged, bulk)) || (nudged && Ended(Staged, UpTo(StagedOrReady, nudging))))
    {
      var own := Arm(arming);
      nudged := false;
      NudgesMeans(bulk, nudge);
      StageAfter(old(State()), arming, bulk, nudge, nudging);
      own, staged := Probe(own, bulk, false);
      if !staged && nudge {
        nudged := true;
        own, staged := Probe(own, nudging, true);
      }
      if own != [] { feedPhases := own; }
    }

    /** Poll the chain and the staging eye until the eye shows or, in a nudge, the belt
        reports ready. */
    method Probe(own0: seq<bool>, readings: seq<Reading>, nudging: bool) returns (own: seq<bool>, staged: bool)
      requires feedPhases == []
      modifies this
      ensures
        var seen := UpTo(if nudging then StagedOrReady else Staged, readings);
        && feedPhases == [] && Hunt(true, own) == Polls(old(Hunt(true, own0)), Onloads(seen))
        && staged == Ended(Staged, seen)
    {
      own, staged := own0, false;
      ghost var u := if nudging then StagedOrReady else Staged;
      assert Onloads(readings[..0]) == [];
      var i, ready := 0, false;
      while i < |readings| && !ready && !staged
        invariant i <= |readings| && feedPhases == []
        invariant Hunt(true, own) == Polls(old(Hunt(true, own0)), Onloads(readings[..i]))
        invariant forall k :: 0 <= k < i - 1 ==> !Halts(u, readings[k])
        invariant staged == (i > 0 && readings[i - 1].staging)
        invariant ready == (nudging && i > 0 && readings[i - 1].ready)
        decreases |readings| - i
      {
        PassGrows(old(Hunt(true, own0)), readings, i);
        own := JunctionTick(true, own, readings[i].onload);
        if readings[i].staging { staged := true; }
        ready, i := nudging && readings[i].ready, i + 1;
      }
      UpToIs(u, readings, i);
    }
  }

  lemma OwnAfter(stop: StopAt, arming: bool, readings: seq<Reading>, tail: seq<Reading>)
    ensures
      var v := Polls(Armed(arming), Onloads(UpTo(Ready, readings)));
      && PolledBy(TransitionCall(stop, true, arming, readings, tail)) == Onloads(UpTo(Ready, readings))
      && (v.on ==> v.phases != [])
  {
    assert Onloads(UpTo(Ready, readings)) + [] == Onloads(UpTo(Ready, readings));
    PolledCoil(Armed(arming), Onloads(UpTo(Ready, readings)));
  }

  lemma InheritedAfter(w: Watch, stop: StopAt, arming: bool, readings: seq<Reading>, tail: seq<Reading>)
    ensures
      var v := Polls(w, Onloads(UpTo(Ready, readings)));
      After(w, TransitionCall(stop, false, arming, readings, tail))
      == if Reapproaches(stop, readings) then Polls(v, Onloads(UpTo(Ready, tail))) else v
  {
    var seen := Onloads(UpTo(Ready, readings));
    assert seen + [] == seen;
    PollsSplit(w, seen, Onloads(UpTo(Ready, tail)));
  }

  lemma StageAfter(w: Watch, arming: bool, bulk: seq<Reading>, nudge: bool, nudging: seq<Reading>)
    ensures
      var v := Polls(Armed(arming), Onloads(UpTo(Staged, bulk)));
      var u := if Nudges(bulk, nudge) then Polls(v, Onloads(UpTo(StagedOrReady, nudging))) else v;
      After(w, StageCall(arming, bulk, nudge, nudging)) == u && (u.on <==> u.phases != [])
  {
    var seen := Onloads(UpTo(Staged, bulk));
    assert seen + [] == seen;
    PollsSplit(Armed(arming), seen, Onloads(UpTo(StagedOrReady, nudging)));
    ArmedIsSound(arming);
    PollsCutAtFirst(Armed(arming), PolledBy(StageCall(arming, bulk, nudge, nudging)));
  }

  lemma PollIsNext(w: Watch, onload: bool)
    ensures Sound(w) ==> Sound(Poll(w, onload))
    ensures Sound(w) && w.phases != [] ==> (Poll(w, onload).phases == [] <==> Contains(w.history + [onload], Junction))
  {
    if Sound(w) {
      PollIsSound(w, onload);
    }
  }

  /** A chain used up has its coil off. */
  lemma {:induction false} PolledCoil(w: Watch, onloads: seq<bool>)
    requires w.on ==> w.phases != []
    ensures Polls(w, onloads).on ==> Polls(w, onloads).phases != []
    decreases |onloads|
  {
    if onloads != [] {
      PolledCoil(w, onloads[..|onloads| - 1]);
    }
  }

  // --------------------------------------------------- what the eyes showed

  /** A part on the eye; then the eye dark behind it; then a second part; and so on. */
  predicate SeenLit(w: seq<bool>, n: nat)
    requires n <= |w|
  {
    exists i :: 0 <= i < n && w[i]
  }

  predicate LitDark(w: seq<bool>, n: nat)
    requires n <= |w|
  {
    exists i, j :: 0 <= i < j < n && w[i] && !w[j]
  }

  predicate LitDarkLit(w: seq<bool>, n: nat)
    requires n <= |w|
  {
    exists i, j, k :: 0 <= i < j < k < n && w[i] && !w[j] && w[k]
  }

  predicate LitDarkLitDark(w: seq<bool>, n: nat)
    requires n <= |w|
  {
    exists i, j, k, l :: 0 <= i < j < k < l < n && w[i] && !w[j] && w[k] && !w[l]
  }

  /** Containing a chain is containing its last level somewhere, and the rest before it. */
  lemma {:induction false} ContainsLast(w: seq<bool>, chain: seq<bool>)
    requires chain != []
    ensures Contains(w, chain) <==>
      exists k :: 0 <= k < |w| && w[k] == chain[|chain| - 1] && Contains(w[..k], chain[..|chain| - 1])
    decreases |w|
  {
    if w != [] {
      var n, last := |w| - 1, chain[|chain| - 1];
      ContainsLast(w[..n], chain);
      if Contains(w[..n], chain) {
        var k :| 0 <= k < n && w[..n][k] == last && Contains(w[..n][..k], chain[..|chain| - 1]);
        assert w[..n][..k] == w[..k] && w[k] == last;
      }
      if k :| 0 <= k < |w| && w[k] == last && Contains(w[..k], chain[..|chain| - 1]) {
        if k < n {
          assert w[..n][..k] == w[..k] && w[..n][k] == last;
        }
      }
    }
  }

  lemma ContainsLit(w: seq<bool>, n: nat)
    requires n <= |w|
    ensures Contains(w[..n], [true]) <==> SeenLit(w, n)
  {
    ContainsLast(w[..n], [true]);
    assert [true][..0] == [];
    if SeenLit(w, n) {
      var i :| 0 <= i < n && w[i];
      assert w[..n][i] && Contains(w[..n][..i], []);
    }
  }

  lemma ContainsLitDark(w: seq<bool>, n: nat)
    requires n <= |w|
    ensures Contains(w[..n], [true, false]) <==> LitDark(w, n)
  {
    ContainsLast(w[..n], [true, false]);
    assert [true, false][..1] == [true];
    forall k | 0 <= k < n ensures Contains(w[..n][..k], [true]) <==> SeenLit(w, k) {
      assert w[..n][..k] == w[..k];
      ContainsLit(w, k);
    }
    if LitDark(w, n) {
      var i, j :| 0 <= i < j < n && w[i] && !w[j];
      assert w[..n][j] == w[j] && SeenLit(w, j);
    }
  }

  lemma ContainsLitDarkLit(w: seq<bool>, n: nat)
    requires n <= |w|
    ensures Contains(w[..n], [true, false, true]) <==> LitDarkLit(w, n)
  {
    ContainsLast(w[..n], [true, false, true]);
    assert [true, false, true][..2] == [true, false];
    forall k | 0 <= k < n ensures Contains(w[..n][..k], [true, false]) <==> LitDark(w, k) {
      assert w[..n][..k] == w[..k];
      ContainsLitDark(w, k);
    }
    if LitDarkLit(w, n) {
      var i, j, k :| 0 <= i < j < k < n && w[i] && !w[j] && w[k];
      assert w[..n][k] == w[k] && LitDark(w, k);
    }
  }

  lemma ContainsLitDarkLitDark(w: seq<bool>, n: nat)
    requires n <= |w|
    ensures Contains(w[..n], [true, false, true, false]) <==> LitDarkLitDark(w, n)
  {
    ContainsLast(w[..n], [true, false, true, false]);
    assert [true, false, true, false][..3] == [true, false, true];
    forall k | 0 <= k < n ensures Contains(w[..n][..k], [true, false, true]) <==> LitDarkLit(w, k) {
      assert w[..n][..k] == w[..k];
      ContainsLitDarkLit(w, k);
    }
    if LitDarkLitDark(w, n) {
      var i, j, k, l :| 0 <= i < j < k < l < n && w[i] && !w[j] && w[k] && !w[l];
      assert w[..n][l] == w[l] && LitDarkLit(w, l);
    }
  }

  /** The cut comes once a part has been seen, then its tail, then the next part's nose. */
  lemma CutMeans(history: seq<bool>)
    ensures Contains(history, Junction) <==> LitDarkLit(history, |history|)
  {
    assert history[..|history|] == history;
    ContainsLitDarkLit(history, |history|);
  }

  /** The stop eye has shown the arrival: the part leaving O first, if one stood there,
      past the eye and off it; then the one arriving, and in an upstream pass off it. */
  predicate EyeShows(stop: StopAt, seen: seq<Reading>) {
    var w := WorkZeros(seen);
    match stop
    case Nowhere => false
    case Staging => exists i :: 0 <= i < |seen| && seen[i].staging
    case WorkZero(oOccupied, passThrough) =>
      if oOccupied then (if passThrough then LitDarkLitDark(w, |w|) else LitDarkLit(w, |w|))
      else (if passThrough then LitDark(w, |w|) else SeenLit(w, |w|))
  }

  lemma ArrivesMeans(stop: StopAt, seen: seq<Reading>)
    ensures Arrives(stop, seen) <==> EyeShows(stop, seen)
  {
    var w := WorkZeros(seen);
    assert w[..|w|] == w;
    if stop.WorkZero? {
      var chain := WorkZeroChain(stop);
      if stop.oOccupied && stop.passThrough {
        assert chain == [true, false, true, false];
        ContainsLitDarkLitDark(w, |w|);
      } else if stop.oOccupied {
        assert chain == [true, false, true];
        ContainsLitDarkLit(w, |w|);
      } else if stop.passThrough {
        assert chain == [true, false];
        ContainsLitDark(w, |w|);
      } else {
        assert chain == [true];
        ContainsLit(w, |w|);
      }
    }
  }

  /** Where the part is wanted: the belt ended its move in time, the eye showed the arrival
      on the way, and after an upstream pass it showed the part again on the way back. */
  predicate PartIsThere(stop: StopAt, readings: seq<Reading>, tail: seq<Reading>) {
    && (exists r :: r in readings && r.ready)
    && EyeShows(stop, UpTo(Ready, readings))
    && (stop.WorkZero? && stop.passThrough ==> exists i :: 0 <= i < |UpTo(Ready, tail)| && UpTo(Ready, tail)[i].workZero)
  }

  lemma {:induction false} EndedMeans(u: Until, readings: seq<Reading>)
    ensures Ended(u, UpTo(u, readings)) <==> exists r :: r in readings && Halts(u, r)
  {
    if readings != [] {
      var rest := readings[1..];
      EndedMeans(u, rest);
      if Halts(u, readings[0]) {
        assert readings[0] in readings;
      } else {
        assert UpTo(u, readings) == [readings[0]] + UpTo(u, rest);
        assert forall r :: r in readings <==> r == readings[0] || r in rest;
        if UpTo(u, rest) != [] {
          assert UpTo(u, readings)[|UpTo(u, readings)| - 1] == UpTo(u, rest)[|UpTo(u, rest)| - 1];
        }
      }
    }
  }

  lemma TransitionArrivesMeans(stop: StopAt, readings: seq<Reading>, tail: seq<Reading>)
    ensures TransitionArrives(stop, readings, tail) <==> PartIsThere(stop, readings, tail)
    ensures Ended(Ready, UpTo(Ready, readings)) <==> exists r :: r in readings && r.ready
  {
    EndedMeans(Ready, readings);
    ReadyMeans(readings);
    ArrivesMeans(stop, UpTo(Ready, readings));
    ShownMeans(UpTo(Ready, tail));
  }

  lemma ReadyMeans(readings: seq<Reading>)
    ensures (exists r :: r in readings && Halts(Ready, r)) <==> exists r :: r in readings && r.ready
  {
    if r :| r in readings && r.ready {
      assert Halts(Ready, r);
    }
  }

  lemma ShownMeans(seen: seq<Reading>)
    ensures Shown(seen) <==> exists i :: 0 <= i < |seen| && seen[i].workZero
  {
    if i :| 0 <= i < |seen| && seen[i].workZero {
      assert seen[i] in seen;
    }
  }

  /** Where the loops end: a transition's at the first ready, the bulk feed's at the first
      staged part, and the nudge's at whichever comes first. */
  lemma PassesEnd(readings: seq<Reading>)
    ensures
      var seen := UpTo(Ready, readings);
      (forall i :: 0 <= i < |seen| - 1 ==> !readings[i].ready) && (|seen| < |readings| ==> seen != [] && readings[|seen| - 1].ready)
    ensures
      var seen := UpTo(Staged, readings);
      (forall i :: 0 <= i < |seen| - 1 ==> !readings[i].staging) && (|seen| < |readings| ==> seen != [] && readings[|seen| - 1].staging)
    ensures
      var seen := UpTo(StagedOrReady, readings);
      && (forall i :: 0 <= i < |seen| - 1 ==> !readings[i].staging && !readings[i].ready)
      && (|seen| < |readings| ==> seen != [] && (readings[|seen| - 1].staging || readings[|seen| - 1].ready))
  {
    forall i | 0 <= i < |UpTo(Ready, readings)| - 1 ensures !readings[i].ready {
      assert !Halts(Ready, readings[i]);
    }
    forall i | 0 <= i < |UpTo(Staged, readings)| - 1 ensures !readings[i].staging {
      assert !Halts(Staged, readings[i]);
    }
    forall i | 0 <= i < |UpTo(StagedOrReady, readings)| - 1 ensures !readings[i].staging && !readings[i].ready {
      assert !Halts(StagedOrReady, readings[i]);
    }
  }

  /** The nudge follows a bulk feed that never showed the staging eye. */
  lemma NudgesMeans(bulk: seq<Reading>, nudge: bool)
    ensures Nudges(bulk, nudge) <==> nudge && forall r :: r in bulk ==> !r.staging
  {
    EndedMeans(Staged, bulk);
    if r :| r in bulk && r.staging {
      assert Halts(Staged, r);
    }
  }

  /** Calls that leave no watch behind: a stop, a composite that failed, and a maneuver
      with its own feed that was not an intake ending in time. */
  predicate EndsTheWatch(c: Call) {
    match c
    case FeedStopCall => true
    case CompositeCall(ok) => !ok
    case TransitionCall(stop, feed, arming, readings, tail) => feed && !(stop.Staging? && exists r :: r in readings && r.ready)
    case _ => false
  }

  lemma EndedWatches(w: Watch, c: Call)
    requires EndsTheWatch(c)
    ensures !After(w, c).on && After(w, c).phases == []
  {
    if c.TransitionCall? {
      EndedMeans(Ready, c.readings);
      ReadyMeans(c.readings);
    }
  }

  // ------------------------------------------------------- the stop chain

  /** The stop chain stands where the readings put it, and so does the arrival. */
  predicate StopFits(stop: StopAt, wz: seq<bool>, arrived: bool, passed: seq<Reading>) {
    wz == Left(WorkZeroChain(stop), WorkZeros(passed)) && arrived == Arrives(stop, passed)
  }

  lemma StopStarts(stop: StopAt)
    ensures StopFits(stop, WorkZeroChain(stop), false, [])
  {
    assert WorkZeros([]) == [];
    DoneIffContained(WorkZeroChain(stop), []);
  }

  lemma StopGrows(stop: StopAt, wz: seq<bool>, arrived: bool, passed: seq<Reading>, r: Reading)
    requires StopFits(stop, wz, arrived, passed)
    ensures
      var left := Next(wz, r.workZero);
      && left == Left(WorkZeroChain(stop), WorkZeros(passed + [r]))
      && (stop.WorkZero? ==> (Arrives(stop, passed + [r]) <==> left == []) && (arrived <==> wz == []))
      && (!stop.WorkZero? ==> wz == [] && (Arrives(stop, passed + [r]) <==> stop.Staging? && (arrived || r.staging)))
  {
    ReadingsGrow(passed, r);
    LeftAppends(WorkZeroChain(stop), WorkZeros(passed), r.workZero);
    DoneIffContained(WorkZeroChain(stop), WorkZeros(passed));
    DoneIffContained(WorkZeroChain(stop), WorkZeros(passed + [r]));
    StagingGrows(passed, r);
  }

  lemma StagingGrows(passed: seq<Reading>, r: Reading)
    ensures (exists i :: 0 <= i < |passed + [r]| && (passed + [r])[i].staging)
      <==> (exists i :: 0 <= i < |passed| && passed[i].staging) || r.staging
  {
    var all := passed + [r];
    if exists i :: 0 <= i < |passed| && passed[i].staging {
      var i :| 0 <= i < |passed| && passed[i].staging;
      assert all[i].staging;
    }
    if r.staging {
      assert all[|passed|].staging;
    }
  }

  function Onloads(readings: seq<Reading>): (r: seq<bool>)
    ensures |r| == |readings|
  {
    seq(|readings|, i requires 0 <= i < |readings| => readings[i].onload)
  }

  function WorkZeros(readings: seq<Reading>): (r: seq<bool>)
    ensures |r| == |readings|
  {
    seq(|readings|, i requires 0 <= i < |readings| => readings[i].workZero)
  }

  lemma ReadingsGrow(readings: seq<Reading>, r: Reading)
    ensures Onloads(readings + [r]) == Onloads(readings) + [r.onload]
    ensures WorkZeros(readings + [r]) == WorkZeros(readings) + [r.workZero]
  {
  }

  /** The stop sensor has shown what the maneuver waits for. */
  predicate Arrives(stop: StopAt, readings: seq<Reading>) {
    if stop.WorkZero? then Contains(WorkZeros(readings), WorkZeroChain(stop))
    else stop.Staging? && exists i :: 0 <= i < |readings| && readings[i].staging
  }

  // ------------------------------------------------------- runs of calls

  function RunCalls(w: Watch, calls: seq<Call>): Watch {
    Fold(After, w, calls)
  }

  /** A call that starts a new watch or cancels the live one. */
  predicate Rearms(c: Call) {
    match c
    case FeedStopCall => true
    case CompositeCall(ok) => !ok
    case TransitionCall(stop, feed, arming, readings, tail) => feed
    case StageCall(arming, bulk, nudge, nudging) => true
    case _ => false
  }

  predicate NoneRearms(calls: seq<Call>) {
    forall i :: 0 <= i < |calls| ==> !Rearms(calls[i])
  }

  /** Every junction reading a run of calls takes, in order. */
  function AllPolls(calls: seq<Call>): seq<bool>
    decreases |calls|
  {
    if calls == [] then [] else AllPolls(calls[..|calls| - 1]) + PolledBy(calls[|calls| - 1])
  }

  /** Whether the last call with a say about the coil left it to the watch. */
  function CoilAllowed(on: bool, calls: seq<Call>): bool
    decreases |calls|
  {
    if calls == [] then on
    else
      var before := CoilAllowed(on, calls[..|calls| - 1]);
      match calls[|calls| - 1]
      case SuspendCall => false
      case ResumeCall => true
      case BlindCall(distance) => before || distance > 1.0
      case CompositeCall(ok) => true
      case _ => before
  }

  lemma PollsKeepSound(w: Watch, onloads: seq<bool>)
    requires Sound(w)
    ensures Sound(Polls(w, onloads))
  {
    PollsCutAtFirst(w, onloads);
  }

  lemma CallKeepsSound(w: Watch, c: Call)
    requires Sound(w)
    ensures Sound(After(w, c))
  {
    match c
    case FeedTickCall(onload) => PollIsSound(w, onload);
    case FeedStopCall =>
    case SuspendCall =>
    case ResumeCall =>
    case BlindCall(distance) =>
    case CompositeCall(ok) =>
    case TransitionCall(stop, feed, arming, readings, tail) =>
      if feed {
        ArmedIsSound(arming);
        PollsKeepSound(Armed(arming), PolledBy(c));
      } else {
        PollsKeepSound(w, PolledBy(c));
      }
    case StageCall(arming, bulk, nudge, nudging) =>
      ArmedIsSound(arming);
      PollsKeepSound(Armed(arming), PolledBy(c));
  }

  /** After any run of calls the coil is on only under a live watch that stands where
      its whole history puts it. */
  lemma {:induction false} RunsAreSound(w: Watch, calls: seq<Call>)
    requires Sound(w)
    ensures Sound(RunCalls(w, calls))
    decreases |calls|
  {
    if calls != [] {
      RunsAreSound(w, calls[..|calls| - 1]);
      CallKeepsSound(RunCalls(w, calls[..|calls| - 1]), calls[|calls| - 1]);
    }
  }

  /** The coil has no say in what the watch has seen. */
  lemma {:induction false} PollsIgnoreCoil(w: Watch, v: Watch, onloads: seq<bool>)
    requires v.phases == w.phases && v.history == w.history
    ensures Polls(v, onloads).phases == Polls(w, onloads).phases && Polls(v, onloads).history == Polls(w, onloads).history
    decreases |onloads|
  {
    if onloads != [] {
      PollsIgnoreCoil(w, v, onloads[..|onloads| - 1]);
    }
  }

  /** A call that rearms nothing moves the watch on by exactly its own polls. */
  lemma CallPolls(w: Watch, c: Call)
    requires !Rearms(c)
    ensures After(w, c).phases == Polls(w, PolledBy(c)).phases && After(w, c).history == Polls(w, PolledBy(c)).history
  {
    if c.FeedTickCall? {
      PollsGrow(w, [], c.onload);
      assert [] + [c.onload] == [c.onload];
    }
  }

  lemma {:induction false} RunPolls(w: Watch, calls: seq<Call>)
    requires NoneRearms(calls)
    ensures RunCalls(w, calls).phases == Polls(w, AllPolls(calls)).phases
    ensures RunCalls(w, calls).history == Polls(w, AllPolls(calls)).history
    decreases |calls|
  {
    if calls != [] {
      var init, c := calls[..|calls| - 1], calls[|calls| - 1];
      RunPolls(w, init);
      CallPolls(RunCalls(w, init), c);
      PollsIgnoreCoil(Polls(w, AllPolls(init)), RunCalls(w, init), PolledBy(c));
      PollsSplit(w, AllPolls(init), PolledBy(c));
    }
  }

  lemma {:induction false} RunCoil(w: Watch, calls: seq<Call>)
    requires Sound(w) && NoneRearms(calls)
    ensures RunCalls(w, calls).on == (CoilAllowed(w.on, calls) && RunCalls(w, calls).phases != [])
    decreases |calls|
  {
    if calls != [] {
      var init, c := calls[..|calls| - 1], calls[|calls| - 1];
      var v := RunCalls(w, init);
      RunCoil(w, init);
      RunsAreSound(w, init);
      if c.TransitionCall? {
        PollsCutAtFirst(v, PolledBy(c));
      }
    }
  }

  /** The cut rule over any run of calls: from a live watch, however the polls are
      split over ticks, suspensions, shuffles and transitions with their re-approaches,
      the watch has taken in every junction reading up to the first that completes
      nose, tail, nose and none after it. It is live exactly until then, and the coil
      is on exactly while it is live and no suspension is open. */
  lemma CutAtFirstPoll(w: Watch, calls: seq<Call>)
    requires Sound(w) && w.phases != [] && NoneRearms(calls)
    ensures
      var v := RunCalls(w, calls);
      && FirstCut(w.history, v.history, AllPolls(calls))
      && (v.phases == [] <==> Contains(v.history, Junction))
      && (v.on <==> CoilAllowed(w.on, calls) && !Contains(v.history, Junction))
  {
    RunPolls(w, calls);
    RunCoil(w, calls);
    PollsCutAtFirst(w, AllPolls(calls));
  }

  /** Counted from the arming reading of the maneuver that handed its watch over. */
  predicate HandsOver(c: Call) {
    c.StageCall? || (c.TransitionCall? && c.feed && c.stop.Staging? && Ended(Ready, UpTo(Ready, c.readings)))
  }

  function ArmingOf(c: Call): bool
    requires HandsOver(c)
  {
    match c
    case TransitionCall(stop, feed, arming, readings, tail) => arming
    case StageCall(arming, bulk, nudge, nudging) => arming
  }

  /** The whole life of a watch: from the reading that armed it, through its own
      maneuver and every later call, the cut falls on the first reading that completes
      the pattern. */
  lemma CutSinceArming(w: Watch, first: Call, calls: seq<Call>)
    requires Sound(w) && HandsOver(first) && NoneRearms(calls)
    ensures
      var v := RunCalls(After(w, first), calls);
      && FirstCut([ArmingOf(first)], v.history, PolledBy(first) + AllPolls(calls))
      && (v.phases == [] <==> Contains(v.history, Junction))
      && (v.on <==> CoilAllowed(!Contains(After(w, first).history, Junction), calls) && !Contains(v.history, Junction))
  {
    var a, u, own := Armed(ArmingOf(first)), After(w, first), PolledBy(first);
    ArmedIsSound(ArmingOf(first));
    CallKeepsSound(w, first);
    assert u == Polls(a, own);
    RunPolls(u, calls);
    RunCoil(u, calls);
    PollsSplit(a, own, AllPolls(calls));
    PollsCutAtFirst(a, own);
    PollsCutAtFirst(a, own + AllPolls(calls));
  }

  /** A call that may light the coil of a watch it finds live. */
  predicate Relights(c: Call) {
    match c
    case ResumeCall => true
    case BlindCall(distance) => distance > 1.0
    case CompositeCall(ok) => ok
    case TransitionCall(stop, feed, arming, readings, tail) => feed
    case StageCall(arming, bulk, nudge, nudging) => true
    case _ => false
  }

  lemma {:induction false} DarkStays(w: Watch, calls: seq<Call>)
    requires Sound(w) && !w.on && forall i :: 0 <= i < |calls| ==> !Relights(calls[i])
    ensures !RunCalls(w, calls).on
    decreases |calls|
  {
    if calls != [] {
      var init, c := calls[..|calls| - 1], calls[|calls| - 1];
      DarkStays(w, init);
      RunsAreSound(w, init);
      if c.TransitionCall? {
        PollsCutAtFirst(RunCalls(w, init), PolledBy(c));
      }
    }
  }

  lemma RunGrows(w: Watch, calls: seq<Call>, c: Call)
    ensures RunCalls(w, calls + [c]) == After(RunCalls(w, calls), c)
  {
    FoldGrows(After, w, calls, c);
  }

  lemma RunsJoin(w: Watch, a: seq<Call>, b: seq<Call>)
    ensures RunCalls(w, a + b) == RunCalls(RunCalls(w, a), b)
  {
    FoldSplits(After, w, a, b);
  }

  /** The suspended span: after any run of calls, from a suspend on the coil is off at
      every call until one that lights it again; a resume then lights it exactly if the
      watch is still live, so never after a fault or halt has cancelled it. */
  lemma SuspendedSpanIsDark(w: Watch, before: seq<Call>, span: seq<Call>)
    requires Sound(w) && forall i :: 0 <= i < |span| ==> !Relights(span[i])
    ensures
      var v := RunCalls(w, before + [SuspendCall] + span);
      !v.on && After(v, ResumeCall).on == (v.phases != [])
    ensures FeedStopCall in span ==> RunCalls(w, before + [SuspendCall] + span).phases == []
  {
    var u := RunCalls(w, before + [SuspendCall]);
    RunsAreSound(w, before);
    RunGrows(w, before, SuspendCall);
    CallKeepsSound(RunCalls(w, before), SuspendCall);
    DarkStays(u, span);
    RunsJoin(w, before + [SuspendCall], span);
    if FeedStopCall in span {
      CancelledStays(u, span);
    }
  }

  /** Nothing but an arming maneuver brings a cancelled watch back. */
  lemma {:induction false} CancelledStays(w: Watch, calls: seq<Call>)
    requires (FeedStopCall in calls || w.phases == []) && forall i :: 0 <= i < |calls| ==> !Relights(calls[i])
    ensures RunCalls(w, calls).phases == []
    decreases |calls|
  {
    if calls != [] {
      var init, c := calls[..|calls| - 1], calls[|calls| - 1];
      if FeedStopCall in init || w.phases == [] {
        CancelledStays(w, init);
        PolledOut(RunCalls(w, init), PolledBy(c));
      } else {
        assert calls == init + [c] && c == FeedStopCall;
      }
    }
  }

  lemma {:induction false} PolledOut(w: Watch, onloads: seq<bool>)
    requires w.phases == []
    ensures Polls(w, onloads) == w
    decreases |onloads|
  {
    if onloads != [] {
      PolledOut(w, onloads[..|onloads| - 1]);
    }
  }
}
