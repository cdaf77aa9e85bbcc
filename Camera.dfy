/**
  The exercise screen's bookkeeping of the records the repetition engine
  hands it: where the session stands (set and repetition), the log of every
  record, the report of a completed set and the feedback line shown after
  a repetition.

  The screen is configured with `reps` repetitions per set and `sets` sets,
  both at least 1. A record's `repetition` is the engine's global counter
  g = 1, 2, 3, ...
*/
module Camera {
  import opened Wrappers
  import opened PoseDetection

  // ------------------------------------------------------------ position

  /** Math.ceil(a / b) for integers a and b > 0. */
  function CeilDiv(a: int, b: int): (q: int)
    requires b > 0
    ensures (q - 1) * b < a <= q * b
  {
    if a % b == 0 then a / b else a / b + 1
  }

  /**
    The set a global repetition g falls in, Math.min(Math.ceil(g / reps), sets):
    the set whose repetitions include g, or the last set once g runs past it.
  */
  function SetOf(g: int, reps: int, sets: int): (s: int)
    requires g >= 1 && reps >= 1 && sets >= 1
    ensures 1 <= s <= sets
    ensures g <= reps * sets ==> (s - 1) * reps < g <= s * reps
    ensures g > reps * sets ==> s == sets
  {
    var q := CeilDiv(g, reps);
    CeilAgainstSets(g, q, reps, sets);
    if q < sets then q else sets
  }

  /** How Math.ceil(g / reps) compares with 1 and with the number of sets. */
  lemma CeilAgainstSets(g: int, q: int, reps: int, sets: int)
    requires g >= 1 && reps >= 1 && sets >= 1 && (q - 1) * reps < g <= q * reps
    ensures q >= 1
    ensures q <= sets <==> g <= reps * sets
  {
    if q <= 0 { MulNonPositive(q, reps); }
    if g <= reps * sets {
      if q > sets { MulMonotone(sets, q - 1, reps); }
    } else {
      if q <= sets { MulMonotone(q, sets, reps); }
    }
  }

  /**
    The repetition within its set that g stands for, ((g - 1) % reps) + 1.
    For g >= 1 the operand g - 1 is not negative, so JavaScript's truncating
    remainder and Dafny's Euclidean one agree.
  */
  function RepOf(g: int, reps: int): (r: int)
    requires g >= 1 && reps >= 1
    ensures 1 <= r <= reps
    ensures (g - r) % reps == 0
  {
    var r := ((g - 1) % reps) + 1;
    DivModUnique(g - r, reps, (g - 1) / reps, 0);
    r
  }

  /** The quotient and remainder of a by b > 0 are the only q, r with a == q * b + r and 0 <= r < b. */
  lemma DivModUnique(a: int, b: int, q: int, r: int)
    requires b > 0 && a == q * b + r && 0 <= r < b
    ensures a / b == q && a % b == r
  {
    var q', r' := a / b, a % b;
    assert a == q' * b + r';
    if q < q' {
      MulMonotone(q + 1, q', b);
    } else if q > q' {
      MulMonotone(q' + 1, q, b);
    }
  }

  /** The global repetition that repetition `rep` of set `set` stands for. */
  function Absolute(setNo: int, rep: int, reps: int): int {
    (setNo - 1) * reps + rep
  }

  lemma MulNonPositive(q: int, b: int)
    requires q <= 0 && b > 0
    ensures q * b <= 0
  {
  }

  lemma MulMonotone(x: int, y: int, b: int)
    requires x <= y && b > 0
    ensures x * b <= y * b
  {
  }

  /** Inside the session's range, the set and repetition of g point back to g. */
  lemma PositionRoundTrip(g: int, reps: int, sets: int)
    requires reps >= 1 && sets >= 1 && 1 <= g <= reps * sets
    ensures Absolute(SetOf(g, reps, sets), RepOf(g, reps), reps) == g
  {
    var s, r := SetOf(g, reps, sets), RepOf(g, reps);
    var k := (g - r) / reps;
    assert g - r == k * reps;
    // g - r is a multiple of reps strictly between (s - 2) * reps and s * reps.
    assert (s - 2) * reps < k * reps by {
      assert (s - 2) * reps == (s - 1) * reps - reps;
    }
    CancelBetween(k, s, reps);
  }

  /** The only multiple of b strictly between (s - 2) * b and s * b is (s - 1) * b. */
  lemma CancelBetween(k: int, s: int, b: int)
    requires b > 0 && (s - 2) * b < k * b < s * b
    ensures k == s - 1
  {
    MulStrict(s - 2, k, b);
    MulStrict(k, s, b);
  }

  /** Multiplying by b > 0 keeps a strict order, so it can be cancelled. */
  lemma MulStrict(x: int, y: int, b: int)
    requires b > 0 && x * b < y * b
    ensures x < y
  {
    if x >= y { MulMonotone(y, x, b); }
  }

  /** Every position of the session is named by exactly one global repetition. */
  lemma AbsoluteRoundTrip(setNo: int, rep: int, reps: int, sets: int)
    requires reps >= 1 && 1 <= setNo <= sets && 1 <= rep <= reps
    ensures 1 <= Absolute(setNo, rep, reps) <= reps * sets
    ensures SetOf(Absolute(setNo, rep, reps), reps, sets) == setNo
    ensures RepOf(Absolute(setNo, rep, reps), reps) == rep
  {
    var g := Absolute(setNo, rep, reps);
    MulMonotone(setNo, sets, reps);
    MulMonotone(0, setNo - 1, reps);
    var s, r := SetOf(g, reps, sets), RepOf(g, reps);
    assert (setNo - 1) * reps < g <= setNo * reps;
    assert (s - 1) * reps < g <= s * reps;
    if s < setNo {
      MulMonotone(s, setNo - 1, reps);
    } else if s > setNo {
      MulMonotone(setNo, s - 1, reps);
    }
    PositionRoundTrip(g, reps, sets);
  }

  // ------------------------------------------------------------- reports

  /**
    Array.prototype.slice(start, end) for 0 <= start <= end: the entries
    from start up to end, with both ends cut back to the array's length.
  */
  function Slice<T>(s: seq<T>, start: int, end: int): (r: seq<T>)
    requires 0 <= start <= end
    ensures |r| == (if end <= |s| then end - start else if start <= |s| then |s| - start else 0)
    ensures forall i :: 0 <= i < |r| ==> r[i] == s[start + i]
  {
    if start >= |s| then []
    else if end >= |s| then s[start..]
    else s[start..end]
  }

  /** A repetition g that closes a set is at least reps, and its set starts at g - reps. */
  lemma SetClosing(g: int, reps: int)
    requires reps >= 1 && g >= 1 && g % reps == 0
    ensures g >= reps && (g / reps - 1) * reps == g - reps
  {
    var q := g / reps;
    assert g == q * reps;
    assert (q - 1) * reps == q * reps - reps;
    if q <= 0 { MulNonPositive(q, reps); }
  }

  /** The chat message announcing a completed set: its number and its records. */
  datatype SetReport = SetReport(setNumber: int, results: seq<PoseData>)

  /** The log holds one record per repetition 1, 2, ..., in order. */
  predicate InOrder(log: seq<PoseData>) {
    forall i :: 0 <= i < |log| ==> log[i].repetition == i + 1
  }

  /**
    When the log holds every record up to repetition g and g closes a set,
    the slice [g - reps, g) is exactly that set's records, repetitions
    g - reps + 1 through g.
  */
  lemma SetSliceExact(log: seq<PoseData>, g: int, reps: int)
    requires reps >= 1 && g >= 1 && g % reps == 0
    requires |log| == g && InOrder(log)
    ensures var idx := g / reps - 1;
      var slice := Slice(log, idx * reps, idx * reps + reps);
      |slice| == reps &&
      forall j :: 0 <= j < reps ==> slice[j].repetition == g - reps + 1 + j
  {
    SetClosing(g, reps);
  }

  // ------------------------------------------------------------ feedback

  /** The advice a failed repetition can get, in the order it is written out. */
  datatype Hint = FlexMore | ExtendMore | SteadyElbow | NoLeaningBack | StillShoulder | StraightBack

  function Rank(h: Hint): nat {
    match h
    case FlexMore => 0
    case ExtendMore => 1
    case SteadyElbow => 2
    case NoLeaningBack => 3
    case StillShoulder => 4
    case StraightBack => 5
  }

  /** The fields the hints test, read as 0 when the record does not have them (`?? 0`). */
  function MinAngleOr0(d: PoseData): real { if d.Curl? then d.minAngle else 0.0 }
  function MaxAngleOr0(d: PoseData): real { if d.Curl? then d.maxAngle else 0.0 }
  function ElbowMovementOr0(d: PoseData): real { if d.Curl? then d.elbowMovement else 0.0 }
  function BackAngleOr0(d: PoseData): real { if d.Curl? then d.backAngle else 0.0 }
  function ShoulderMovementOr0(d: PoseData): real { if d.Curl? then d.shoulderMovement else 0.0 }
  function HunchingOr0(d: PoseData): real { if d.Curl? then d.hunching else 0.0 }

  /** Whether a record misses the threshold a hint is about. */
  function Missed(d: PoseData, h: Hint): bool {
    match h
    case FlexMore => MinAngleOr0(d) >= 60.0
    case ExtendMore => MaxAngleOr0(d) <= 150.0
    case SteadyElbow => ElbowMovementOr0(d) >= 0.02
    case NoLeaningBack => BackAngleOr0(d) <= 170.0
    case StillShoulder => ShoulderMovementOr0(d) >= 0.03
    case StraightBack => HunchingOr0(d) <= 160.0
  }

  /** Ranks strictly increase along the sequence: it is in writing order, without repeats. */
  predicate Ranked(hs: seq<Hint>) {
    forall i, j :: 0 <= i < j < |hs| ==> Rank(hs[i]) < Rank(hs[j])
  }

  /** The hints of `hs` that the record misses, in the order of `hs`. */
  function MissedAmong(d: PoseData, hs: seq<Hint>): (r: seq<Hint>)
    ensures forall h :: h in r <==> h in hs && Missed(d, h)
    ensures Ranked(hs) ==> Ranked(r)
  {
    if hs == [] then []
    else
      var rest := MissedAmong(d, hs[1..]);
      assert forall h :: h in hs <==> h == hs[0] || h in hs[1..];
      if Missed(d, hs[0]) then
        assert Ranked(hs) ==> forall h :: h in rest ==> Rank(hs[0]) < Rank(h);
        [hs[0]] + rest
      else rest
  }

  /** Every hint, in the order the feedback line writes them. */
  const AllHints: seq<Hint> := [FlexMore, ExtendMore, SteadyElbow, NoLeaningBack, StillShoulder, StraightBack]

  /** The hints for a record: one per curl threshold the record misses, in writing order. */
  function Hints(d: PoseData): (hs: seq<Hint>)
    ensures FlexMore in hs <==> MinAngleOr0(d) >= 60.0
    ensures ExtendMore in hs <==> MaxAngleOr0(d) <= 150.0
    ensures SteadyElbow in hs <==> ElbowMovementOr0(d) >= 0.02
    ensures NoLeaningBack in hs <==> BackAngleOr0(d) <= 170.0
    ensures StillShoulder in hs <==> ShoulderMovementOr0(d) >= 0.03
    ensures StraightBack in hs <==> HunchingOr0(d) <= 160.0
    ensures Ranked(hs)
  {
    AllHintsRanked();
    MissedAmong(d, AllHints)
  }

  lemma AllHintsRanked()
    ensures Ranked(AllHints)
    ensures forall h :: h in AllHints
  {
    forall h ensures h in AllHints {
      assert AllHints[Rank(h)] == h;
    }
  }

  /** A ranked sequence of hints is determined by which hints it holds. */
  lemma {:induction false} RankedUnique(a: seq<Hint>, b: seq<Hint>)
    requires Ranked(a) && Ranked(b)
    requires forall h :: h in a <==> h in b
    ensures a == b
  {
    if a == [] {
      HeadIn(b);
    } else {
      assert a[0] in b;
      assert b != [];
      assert b[0] in a;
      var k :| 0 <= k < |b| && b[k] == a[0];
      var m :| 0 <= m < |a| && a[m] == b[0];
      assert Rank(a[0]) == Rank(b[0]) by {
        assert Rank(a[0]) <= Rank(a[m]);
        assert Rank(b[0]) <= Rank(b[k]);
      }
      assert a[0] == b[0] by {
        RankInjective(a[0], b[0]);
      }
      forall h ensures h in a[1..] <==> h in b[1..] {
        RankedTail(a, h);
        RankedTail(b, h);
      }
      RankedUnique(a[1..], b[1..]);
    }
  }

  lemma HeadIn(b: seq<Hint>)
    ensures b != [] ==> b[0] in b
  {
  }

  lemma RankInjective(x: Hint, y: Hint)
    requires Rank(x) == Rank(y)
    ensures x == y
  {
  }

  /** In a ranked sequence the tail holds every element but the head. */
  lemma RankedTail(a: seq<Hint>, h: Hint)
    requires Ranked(a) && a != []
    ensures h in a[1..] <==> h in a && h != a[0]
  {
    if h in a[1..] {
      var i :| 1 <= i < |a| && a[i] == h;
      assert Rank(a[0]) < Rank(a[i]);
    }
    if h in a && h != a[0] {
      var i :| 0 <= i < |a| && a[i] == h;
      assert a[1..][i - 1] == h;
    }
  }

  /**
    A failed push-up or jumping-jack record has none of the curl fields, so
    it gets the three hints whose thresholds 0 misses.
  */
  lemma NonCurlHints(d: PoseData)
    requires !d.Curl?
    ensures Hints(d) == [ExtendMore, NoLeaningBack, StraightBack]
  {
    var expected := [ExtendMore, NoLeaningBack, StraightBack];
    forall h ensures h in Hints(d) <==> h in expected {
      match h
      case FlexMore =>
      case ExtendMore =>
      case SteadyElbow =>
      case NoLeaningBack =>
      case StillShoulder =>
      case StraightBack =>
    }
    RankedUnique(Hints(d), expected);
  }

  /**
    For a curl record whose validity is the conjunction of the six curl
    thresholds, as the engine computes it, the hints are the thresholds it
    misses, so it gets no hint exactly when it is valid.
  */
  lemma CurlHintsExactlyWhenInvalid(d: PoseData)
    requires d.Curl?
    requires d.isValid <==>
      d.minAngle < 60.0 && d.maxAngle > 150.0 && d.elbowMovement < 0.02 &&
      d.backAngle > 170.0 && d.shoulderMovement < 0.03 && d.hunching > 160.0
    ensures Hints(d) == [] <==> d.isValid
  {
    var hs := Hints(d);
    if hs == [] {
      assert FlexMore !in hs && ExtendMore !in hs && SteadyElbow !in hs;
      assert NoLeaningBack !in hs && StillShoulder !in hs && StraightBack !in hs;
    } else {
      assert hs[0] in hs;
    }
  }

  function HintText(h: Hint): string {
    match h
    case FlexMore => "Flexiona más. "
    case ExtendMore => "Extiende más. "
    case SteadyElbow => "Codo estable. "
    case NoLeaningBack => "Sin inclinar atrás. "
    case StillShoulder => "Hombro quieto. "
    case StraightBack => "Espalda recta. "
  }

  /** The hints' texts one after another, in hint order. */
  function HintsText(hs: seq<Hint>): (t: string)
    ensures t == "" <==> hs == []
    ensures hs != [] ==> HintText(hs[0]) <= t
  {
    if hs == [] then "" else HintText(hs[0]) + HintsText(hs[1..])
  }

  const Praise: string := "¡Excelente repetición! ✅"
  const ImprovePrefix: string := "Mejora tu técnica: "

  /** The feedback line for a record: praise if it is valid, otherwise the prefix and its hints. */
  function Message(d: PoseData): (m: string)
    ensures m == Praise <==> d.isValid
  {
    if d.isValid then Praise else ImprovePrefix + HintsText(Hints(d))
  }

  /** A failed push-up or jumping-jack repetition always gets the same three hints, in this order. */
  lemma NonCurlMessage(d: PoseData)
    requires !d.Curl? && !d.isValid
    ensures Message(d) == ImprovePrefix + HintText(ExtendMore) + HintText(NoLeaningBack) + HintText(StraightBack)
  {
    NonCurlHints(d);
    NonCurlHintsText();
  }

  lemma NonCurlHintsText()
    ensures HintsText([ExtendMore, NoLeaningBack, StraightBack]) ==
            HintText(ExtendMore) + HintText(NoLeaningBack) + HintText(StraightBack)
  {
    var hs := [ExtendMore, NoLeaningBack, StraightBack];
    assert hs[1..] == [NoLeaningBack, StraightBack];
    assert hs[1..][1..] == [StraightBack];
    var last := HintsText(hs[1..][1..]);
    assert last == HintText(StraightBack) by {
      assert hs[1..][1..][1..] == [];
    }
    assert HintsText(hs) == HintText(ExtendMore) + (HintText(NoLeaningBack) + last);
  }

  /** A failed curl repetition is never told only the prefix: at least one hint follows it. */
  lemma InvalidCurlGetsAHint(d: PoseData)
    requires d.Curl?
    requires d.isValid <==>
      d.minAngle < 60.0 && d.maxAngle > 150.0 && d.elbowMovement < 0.02 &&
      d.backAngle > 170.0 && d.shoulderMovement < 0.03 && d.hunching > 160.0
    requires !d.isValid
    ensures |Message(d)| > |ImprovePrefix|
  {
    CurlHintsExactlyWhenInvalid(d);
  }

  // -------------------------------------------------------------- screen

  /** The exercise screen's state between records. */
  class ExerciseCamera {
    const reps: int
    const sets: int

    var currentRep: int
    var currentSet: int

    /** Every record received, in order. */
    var allReps: seq<PoseData>

    /** The feedback line on screen, if any. */
    var feedback: Option<string>

    ghost predicate Valid()
      reads this
    {
      reps >= 1 && sets >= 1 && 1 <= currentRep <= reps && 1 <= currentSet <= sets
    }

    constructor (reps: int, sets: int)
      requires reps >= 1 && sets >= 1
      ensures Valid()
      ensures this.reps == reps && this.sets == sets
      ensures currentRep == 1 && currentSet == 1 && allReps == [] && feedback == None
    {
      this.reps := reps;
      this.sets := sets;
      currentRep := 1;
      currentSet := 1;
      allReps := [];
      feedback := None;
    }

    /**
      Receives one record: logs it, moves to its set and repetition, reports
      the set it completes, and shows feedback when it is past the position
      the screen was at.
    */
    method HandlePoseData(data: PoseData) returns (report: Option<SetReport>)
      requires Valid() && data.repetition >= 1
      modifies this`allReps, this`currentSet, this`currentRep, this`feedback
      ensures Valid()
      ensures allReps == old(allReps) + [data]
      ensures currentSet == SetOf(data.repetition, reps, sets)
      ensures currentRep == RepOf(data.repetition, reps)
      ensures data.repetition <= reps * sets ==>
                Absolute(currentSet, currentRep, reps) == data.repetition
      ensures report.Some? <==> data.repetition % reps == 0
      ensures report.Some? ==>
                report.value.setNumber == data.repetition / reps &&
                report.value.results == Slice(allReps, data.repetition - reps, data.repetition)
      ensures feedback ==
                if data.repetition > Absolute(old(currentSet), old(currentRep), reps)
                then Some(Message(data)) else old(feedback)
    {
      var oldSet, oldRep := currentSet, currentRep;
      allReps := allReps + [data];
      var g := data.repetition;
      var newSet := SetOf(g, reps, sets);
      var newRep := RepOf(g, reps);
      if newSet != currentSet {
        currentSet := newSet;
      }
      if newRep != currentRep {
        currentRep := newRep;
      }
      if g <= reps * sets {
        PositionRoundTrip(g, reps, sets);
      }

      report := None;
      if g % reps == 0 {
        var idx := g / reps - 1;
        SetClosing(g, reps);
        var start, end := idx * reps, idx * reps + reps;
        assert start == g - reps && end == g;
        report := Some(SetReport(idx + 1, Slice(allReps, start, end)));
      }

      // The position compared against is the one the screen showed before this record.
      var absolute := Absolute(oldSet, oldRep, reps);
      if g > absolute {
        feedback := Some(Message(data));
      }
    }

    /**
      The "next repetition" button: the next repetition of the set, else the
      first repetition of the next set, else (at the last repetition of the
      last set) nothing.
    */
    method HandleNextRep()
      requires Valid()
      modifies this`currentRep, this`currentSet
      ensures Valid()
      ensures old(currentRep) < reps ==> currentRep == old(currentRep) + 1 && currentSet == old(currentSet)
      ensures old(currentRep) == reps && old(currentSet) < sets ==> currentRep == 1 && currentSet == old(currentSet) + 1
      ensures old(currentRep) == reps && old(currentSet) == sets ==> unchanged(this)
      ensures var a := Absolute(old(currentSet), old(currentRep), reps);
        Absolute(currentSet, currentRep, reps) == if a < reps * sets then a + 1 else a
    {
      NextPosition(currentSet, currentRep, reps, sets);
      if currentRep < reps {
        currentRep := currentRep + 1;
      } else if currentSet < sets {
        currentSet := currentSet + 1;
        currentRep := 1;
      }
    }
  }

  /**
    The global repetition of the position after (setNo, rep): one more,
    except at the last repetition of the last set, which is the only
    position naming reps * sets.
  */
  lemma NextPosition(setNo: int, rep: int, reps: int, sets: int)
    requires reps >= 1 && 1 <= setNo <= sets && 1 <= rep <= reps
    ensures Absolute(setNo, rep, reps) == reps * sets <==> rep == reps && setNo == sets
    ensures Absolute(setNo, rep, reps) <= reps * sets
    ensures rep < reps ==> Absolute(setNo, rep + 1, reps) == Absolute(setNo, rep, reps) + 1
    ensures rep == reps ==> Absolute(setNo + 1, 1, reps) == Absolute(setNo, rep, reps) + 1
  {
    assert setNo * reps == (setNo - 1) * reps + reps;
    if setNo < sets {
      MulMonotone(setNo, sets - 1, reps);
      assert sets * reps == (sets - 1) * reps + reps;
    } else {
      assert sets * reps == (sets - 1) * reps + reps;
    }
  }

  /**
    Following the button from any position walks the global repetitions in
    order: one step moves the screen to the set and repetition of the next
    global repetition, until the last repetition of the last set.
  */
  lemma NextRepFollowsMapping(setNo: int, rep: int, reps: int, sets: int)
    requires reps >= 1 && sets >= 1 && 1 <= setNo <= sets && 1 <= rep <= reps
    requires Absolute(setNo, rep, reps) < reps * sets
    ensures var g := Absolute(setNo, rep, reps) + 1;
      (if rep < reps then (setNo, rep + 1) else (setNo + 1, 1)) == (SetOf(g, reps, sets), RepOf(g, reps))
  {
    var g := Absolute(setNo, rep, reps) + 1;
    var next := if rep < reps then (setNo, rep + 1) else (setNo + 1, 1);
    assert rep == reps ==> setNo < sets by {
      if rep == reps && setNo == sets { assert false; }
    }
    assert Absolute(next.0, next.1, reps) == g;
    AbsoluteRoundTrip(next.0, next.1, reps, sets);
  }
}
