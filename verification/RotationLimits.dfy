/**
 Consequences of the rotation compiler's correctness, in terms of map names and of the values
 of variables: which map is loaded when, and that limits stick to the maps that follow.
 */
module RotationLimits {
  import opened Wrappers
  import opened Text
  import opened Console
  import opened Rotation
  import opened RotationPlay

  // ---- Positions ----

  lemma {:induction false} PositionIsMod(n: nat, k: nat)
    requires n > 0
    ensures Position(n, k) == k % n
  {
    if k > 0 {
      PositionIsMod(n, k - 1);
      StepIsMod(n, k - 1);
    }
  }

  lemma ModUnique(n: nat, q: int, r: nat)
    requires r < n
    ensures (n * q + r) % n == r
  {
    var x := n * q + r;
    DivModOf(x, n);
    var d := x / n - q;
    assert n * d == r - x % n by {
      MulSub(n, x / n, q);
    }
    if d > 0 {
      MulAtLeast(n, d);
    } else if d < 0 {
      MulAtLeast(n, -d);
      MulNegate(n, d);
    }
  }

  lemma DivModOf(x: int, n: nat)
    requires n > 0
    ensures x == n * (x / n) + x % n && 0 <= x % n < n
  {
  }

  lemma MulSub(n: int, a: int, b: int)
    ensures n * (a - b) == n * a - n * b
  {
  }

  lemma MulNegate(n: int, d: int)
    ensures n * -d == -(n * d)
  {
  }

  lemma MulAtLeast(n: nat, d: int)
    requires d > 0
    ensures n * d >= n
  {
    MulSub(n, d, 1);
    MulNonNegative(n, d - 1);
  }

  lemma MulNonNegative(n: nat, d: nat)
    ensures n * d >= 0
  {
  }

  lemma StepIsMod(n: nat, k: nat)
    requires n > 0
    ensures Next(k % n, n) == (k + 1) % n
  {
    DivModOf(k, n);
    var q := k / n;
    if k % n + 1 == n {
      assert k + 1 == n * (q + 1) + 0 by {
        MulSub(n, q + 1, 1);
      }
      ModUnique(n, q + 1, 0);
    } else {
      ModUnique(n, q, k % n + 1);
    }
  }

  lemma PositionRepeats(n: nat, k: nat)
    requires n > 0
    ensures Position(n, k + n) == Position(n, k)
  {
    PositionIsMod(n, k);
    PositionIsMod(n, k + n);
    DivModOf(k, n);
    var q := k / n;
    MulSub(n, q + 1, 1);
    ModUnique(n, q + 1, k % n);
  }

  /** The map end at which map `i` is next played, counting from `lap`. */
  function Visit(n: nat, lap: nat, i: nat): nat
    requires i < n
  {
    if Position(n, lap) <= i then lap + i - Position(n, lap) else lap + n + i - Position(n, lap)
  }

  lemma {:induction false} PositionWalks(n: nat, k: nat, d: nat)
    requires n > 0
    ensures Position(n, k) + d < n ==> Position(n, k + d) == Position(n, k) + d
    ensures n <= Position(n, k) + d < 2 * n ==> Position(n, k + d) == Position(n, k) + d - n
  {
    if d > 0 {
      PositionWalks(n, k, d - 1);
    }
  }

  /** Every lap visits every map exactly once. */
  lemma LapVisitsOnce(n: nat, lap: nat, i: nat, k: nat)
    requires i < n && lap <= k < lap + n
    ensures lap <= Visit(n, lap, i) < lap + n
    ensures Position(n, k) == i <==> k == Visit(n, lap, i)
  {
    PositionWalks(n, lap, k - lap);
    PositionWalks(n, lap, Visit(n, lap, i) - lap);
  }

  // ---- Loads ----

  /** Since `before`, exactly positions 0..k were loaded: map j mod n at j, with its game type in force. */
  predicate LoadedInOrder(maps: seq<Map>, before: seq<Load>, k: nat, loads: seq<Load>)
    requires |maps| > 0
  {
    && |loads| == |before| + k + 1
    && before <= loads
    && forall i :: |before| <= i < |loads| ==> Loads(maps, i - |before|, loads[i])
  }

  predicate Loads(maps: seq<Map>, j: nat, load: Load)
    requires |maps| > 0
  {
    load.name == maps[j % |maps|].name && Get(load.vars, "g_gametype") == Itoa(maps[j % |maps|].gameType)
  }

  lemma EnterGameType(m: Map, vars: Vars)
    ensures Get(Enter(m, vars), "g_gametype") == Itoa(m.gameType)
  {
  }

  /** Playing position `k` loads its map. */
  lemma PlayLoads(maps: seq<Map>, k: nat, st: State)
    requires |maps| > 0
    ensures var i := Position(|maps|, k);
            var after := PlayMap(maps[i], Next(i, |maps|), st);
            && after.stuck == st.stuck
            && |after.loads| == |st.loads| + 1 && st.loads <= after.loads
            && Loads(maps, k, after.loads[|st.loads|])
  {
    var i := Position(|maps|, k);
    PositionIsMod(|maps|, k);
    EnterGameType(maps[i], st.vars);
  }

  lemma LoadsAppend(maps: seq<Map>, before: seq<Load>, k: nat, loads: seq<Load>, after: seq<Load>)
    requires |maps| > 0 && k > 0 && LoadedInOrder(maps, before, k - 1, loads)
    requires |after| == |loads| + 1 && loads <= after && Loads(maps, k, after[|loads|])
    ensures LoadedInOrder(maps, before, k, after)
  {
    assert forall i :: 0 <= i < |loads| ==> after[i] == loads[i];
  }

  lemma {:induction false} ResumedLoads(maps: seq<Map>, before: seq<Load>, st: State, k: nat)
    requires |maps| > 0 && LoadedInOrder(maps, before, 0, st.loads)
    ensures Resumed(maps, st, k).stuck == st.stuck
    ensures LoadedInOrder(maps, before, k, Resumed(maps, st, k).loads)
  {
    if k > 0 {
      ResumedLoads(maps, before, st, k - 1);
      PlayLoads(maps, k, Resumed(maps, st, k - 1));
      LoadsAppend(maps, before, k, Resumed(maps, st, k - 1).loads, Resumed(maps, st, k).loads);
    }
  }

  lemma FirstLoads(maps: seq<Map>, st: State)
    requires |maps| > 0
    ensures Played(maps, Start(maps, st), 0).stuck == st.stuck
    ensures LoadedInOrder(maps, st.loads, 0, Played(maps, Start(maps, st), 0).loads)
  {
    PlayLoads(maps, 0, Start(maps, st));
  }

  /** The emitted script, once run, followed by `k` map ends. */
  function AfterMapEnds(maps: seq<Map>, st: State, k: nat, depth: nat): State {
    MapEnds(Run(Commands(RotationText(maps)), st, depth), k, depth)
  }

  /**
   Running the emitted script and then ending k maps loads exactly k + 1 maps: map j mod n at
   position j, with that map's game type in force.
   */
  lemma RotationLoads(maps: seq<Map>, st: State, k: nat, depth: nat)
    requires WellFormed(maps) && depth >= 2
    ensures AfterMapEnds(maps, st, k, depth).stuck == st.stuck
    ensures LoadedInOrder(maps, st.loads, k, AfterMapEnds(maps, st, k, depth).loads)
  {
    RotationCorrect(maps, st, k, depth);
    FirstLoads(maps, st);
    ResumedLoads(maps, st.loads, Played(maps, Start(maps, st), 0), k);
  }

  // ---- Values stick ----

  /** What playing a map sets a variable to, besides the slots d0, d1, ... */
  function SetByMap(m: Map, next: nat, name: string): Option<string> {
    if name == "nextmap" then Some("vstr " + Slot(next))
    else if name == "g_gametype" then Some(Itoa(m.gameType))
    else if name == "capturelimit" then CaptureSet(m)
    else if name == "fraglimit" then FragSet(m)
    else if name == "timelimit" then TimeSet(m)
    else None
  }

  lemma PlayMapLooksUp(m: Map, next: nat, st: State, name: string)
    ensures Get(PlayMap(m, next, st).vars, name) == SetByMap(m, next, name).GetOr(Get(st.vars, name))
    ensures name in PlayMap(m, next, st).vars <==> name in st.vars || SetByMap(m, next, name).Some?
  {
    assert "fraglimit"[0] != "timelimit"[0];
  }

  function SetAt(maps: seq<Map>, i: nat, name: string): Option<string>
    requires i < |maps|
  {
    SetByMap(maps[i], Next(i, |maps|), name)
  }

  /** The value of the last of positions j..k-1 that sets the variable. */
  function LastSet(maps: seq<Map>, j: nat, k: nat, name: string): Option<string>
    requires |maps| > 0
    decreases k
  {
    if k <= j then None
    else
      var v := SetAt(maps, Position(|maps|, k - 1), name);
      if v.Some? then v else LastSet(maps, j, k - 1, name)
  }

  lemma {:induction false} ResumedLooksUp(maps: seq<Map>, st: State, k: nat, name: string)
    requires |maps| > 0
    ensures Get(Resumed(maps, st, k).vars, name) == LastSet(maps, 1, k + 1, name).GetOr(Get(st.vars, name))
  {
    if k > 0 {
      var i := Position(|maps|, k);
      ResumedLooksUp(maps, st, k - 1, name);
      PlayMapLooksUp(maps[i], Next(i, |maps|), Resumed(maps, st, k - 1), name);
    }
  }

  /** Names the rotation does not use for its programs. */
  ghost predicate NotASlot(name: string) {
    forall i: nat :: name != Slot(i)
  }

  lemma {:induction false} SlotsApart(bodies: seq<string>, i: nat, vars: Vars, name: string)
    requires i <= |bodies| && NotASlot(name)
    ensures Get(DefineSlots(bodies, i, vars), name) == Get(vars, name)
    ensures name in DefineSlots(bodies, i, vars) <==> name in vars
  {
    if i > 0 {
      assert name != Slot(i - 1);
      SlotsApart(bodies, i - 1, vars, name);
    }
  }

  lemma FirstLooksUp(maps: seq<Map>, st: State, name: string)
    requires |maps| > 0 && NotASlot(name)
    ensures Get(Played(maps, Start(maps, st), 0).vars, name) == SetAt(maps, 0, name).GetOr(Get(st.vars, name))
    ensures name in Played(maps, Start(maps, st), 0).vars <==> name in st.vars || SetAt(maps, 0, name).Some?
  {
    SlotsApart(Bodies(maps), |maps|, st.vars, name);
    PlayMapLooksUp(maps[0], Next(0, |maps|), Start(maps, st), name);
  }

  lemma {:induction false} LastSetFromFirst(maps: seq<Map>, k: nat, name: string)
    requires |maps| > 0
    ensures LastSet(maps, 0, k + 1, name)
         == if LastSet(maps, 1, k + 1, name).Some? then LastSet(maps, 1, k + 1, name) else SetAt(maps, 0, name)
  {
    if k > 0 {
      LastSetFromFirst(maps, k - 1, name);
    } else {
      assert LastSet(maps, 0, 0, name).None? && LastSet(maps, 1, 1, name).None?;
    }
  }

  /**
   After k map ends each variable has the value of the last map at positions 0..k that sets it,
   and otherwise what it had before the script ran: limits stick to the maps that follow.
   */
  lemma ValuesStick(maps: seq<Map>, st: State, k: nat, depth: nat, name: string)
    requires WellFormed(maps) && depth >= 2 && NotASlot(name)
    ensures Get(AfterMapEnds(maps, st, k, depth).vars, name)
         == LastSet(maps, 0, k + 1, name).GetOr(Get(st.vars, name))
  {
    RotationCorrect(maps, st, k, depth);
    FirstLooksUp(maps, st, name);
    ResumedLooksUp(maps, Played(maps, Start(maps, st), 0), k, name);
    LastSetFromFirst(maps, k, name);
  }

  // ---- Which limit is in force ----

  predicate Captures(m: Map) { m.gameType == 4 && m.captureLimit != 0 }

  predicate LimitsFrags(m: Map) { m.fragLimit != 0 }

  predicate LimitsTime(m: Map) { m.timeLimit != 0 }

  /** The map at position j is the last of those at positions 0..k that has the property. */
  ghost predicate LastAt(maps: seq<Map>, k: nat, has: Map -> bool, j: nat)
    requires |maps| > 0
  {
    j <= k && has(maps[j % |maps|]) && forall i :: j < i <= k ==> !has(maps[i % |maps|])
  }

  ghost predicate NoneHas(maps: seq<Map>, k: nat, has: Map -> bool)
    requires |maps| > 0
  {
    forall i :: 0 <= i <= k ==> !has(maps[i % |maps|])
  }

  /**
   The limits after k map ends: only a map of type 4 (CaptureTheFlag) sets the capture limit, a limit
   of zero sets nothing, and a limit once set stays until another map sets it. `before` is what
   the three limits were.
   */
  ghost predicate LimitsStick(maps: seq<Map>, k: nat, before: (string, string, string), vars: Vars)
    requires |maps| > 0
  {
    && (forall j: nat :: LastAt(maps, k, Captures, j) ==>
          Get(vars, "capturelimit") == Itoa(maps[j % |maps|].captureLimit))
    && (NoneHas(maps, k, Captures) ==> Get(vars, "capturelimit") == before.0)
    && (forall j: nat :: LastAt(maps, k, LimitsFrags, j) ==>
          Get(vars, "fraglimit") == Itoa(maps[j % |maps|].fragLimit))
    && (NoneHas(maps, k, LimitsFrags) ==> Get(vars, "fraglimit") == before.1)
    && (forall j: nat, n :: LastAt(maps, k, LimitsTime, j) && WholeMinutes(maps[j % |maps|].timeLimit, n) ==>
          Get(vars, "timelimit") == Itoa(n))
    && (NoneHas(maps, k, LimitsTime) ==> Get(vars, "timelimit") == before.2)
  }

  lemma {:induction false} LastSetAt(maps: seq<Map>, k: nat, name: string, has: Map -> bool, j: nat)
    requires |maps| > 0 && LastAt(maps, k, has, j)
    requires forall m, next :: SetByMap(m, next, name).Some? <==> has(m)
    ensures LastSet(maps, 0, k + 1, name) == SetAt(maps, j % |maps|, name)
  {
    PositionIsMod(|maps|, k);
    if j < k {
      assert !has(maps[k % |maps|]);
      LastSetAt(maps, k - 1, name, has, j);
    }
  }

  lemma {:induction false} NothingSet(maps: seq<Map>, k: nat, name: string, has: Map -> bool)
    requires |maps| > 0 && NoneHas(maps, k, has)
    requires forall m, next :: SetByMap(m, next, name).Some? <==> has(m)
    ensures LastSet(maps, 0, k + 1, name).None?
  {
    PositionIsMod(|maps|, k);
    assert !has(maps[k % |maps|]);
    if k > 0 {
      NothingSet(maps, k - 1, name, has);
    }
  }

  /** What the limits are in terms of the compiler's choices. */
  function LastLimits(maps: seq<Map>, k: nat, before: (string, string, string)): (string, string, string)
    requires |maps| > 0
  {
    (LastSet(maps, 0, k + 1, "capturelimit").GetOr(before.0),
     LastSet(maps, 0, k + 1, "fraglimit").GetOr(before.1),
     LastSet(maps, 0, k + 1, "timelimit").GetOr(before.2))
  }

  function Limits(vars: Vars): (string, string, string) {
    (Get(vars, "capturelimit"), Get(vars, "fraglimit"), Get(vars, "timelimit"))
  }

  lemma CapturesStick(maps: seq<Map>, k: nat, before: string)
    requires |maps| > 0
    ensures var limit := LastSet(maps, 0, k + 1, "capturelimit").GetOr(before);
            && (forall j: nat :: LastAt(maps, k, Captures, j) ==> limit == Itoa(maps[j % |maps|].captureLimit))
            && (NoneHas(maps, k, Captures) ==> limit == before)
  {
    assert forall m, next :: SetByMap(m, next, "capturelimit").Some? <==> Captures(m);
    forall j: nat | LastAt(maps, k, Captures, j)
      ensures LastSet(maps, 0, k + 1, "capturelimit") == Some(Itoa(maps[j % |maps|].captureLimit))
    {
      LastSetAt(maps, k, "capturelimit", Captures, j);
    }
    if NoneHas(maps, k, Captures) {
      NothingSet(maps, k, "capturelimit", Captures);
    }
  }

  lemma FragsStick(maps: seq<Map>, k: nat, before: string)
    requires |maps| > 0
    ensures var limit := LastSet(maps, 0, k + 1, "fraglimit").GetOr(before);
            && (forall j: nat :: LastAt(maps, k, LimitsFrags, j) ==> limit == Itoa(maps[j % |maps|].fragLimit))
            && (NoneHas(maps, k, LimitsFrags) ==> limit == before)
  {
    assert forall m, next :: SetByMap(m, next, "fraglimit").Some? <==> LimitsFrags(m);
    forall j: nat | LastAt(maps, k, LimitsFrags, j)
      ensures LastSet(maps, 0, k + 1, "fraglimit") == Some(Itoa(maps[j % |maps|].fragLimit))
    {
      LastSetAt(maps, k, "fraglimit", LimitsFrags, j);
    }
    if NoneHas(maps, k, LimitsFrags) {
      NothingSet(maps, k, "fraglimit", LimitsFrags);
    }
  }

  lemma TimesStick(maps: seq<Map>, k: nat, before: string)
    requires |maps| > 0
    ensures var limit := LastSet(maps, 0, k + 1, "timelimit").GetOr(before);
            && (forall j: nat, n :: LastAt(maps, k, LimitsTime, j) && WholeMinutes(maps[j % |maps|].timeLimit, n) ==>
                  limit == Itoa(n))
            && (NoneHas(maps, k, LimitsTime) ==> limit == before)
  {
    assert forall m, next :: SetByMap(m, next, "timelimit").Some? <==> LimitsTime(m);
    forall j: nat, n | LastAt(maps, k, LimitsTime, j) && WholeMinutes(maps[j % |maps|].timeLimit, n)
      ensures LastSet(maps, 0, k + 1, "timelimit") == Some(Itoa(n))
    {
      LastSetAt(maps, k, "timelimit", LimitsTime, j);
      MinutesAreWhole(maps[j % |maps|].timeLimit, n);
    }
    if NoneHas(maps, k, LimitsTime) {
      NothingSet(maps, k, "timelimit", LimitsTime);
    }
  }

  lemma LastLimitsStick(maps: seq<Map>, k: nat, before: (string, string, string), vars: Vars)
    requires |maps| > 0 && Limits(vars) == LastLimits(maps, k, before)
    ensures LimitsStick(maps, k, before, vars)
  {
    CapturesStick(maps, k, before.0);
    FragsStick(maps, k, before.1);
    TimesStick(maps, k, before.2);
  }

  lemma LimitNamesApart()
    ensures NotASlot("capturelimit") && NotASlot("fraglimit") && NotASlot("timelimit")
  {
    forall i: nat
      ensures "capturelimit" != Slot(i) && "fraglimit" != Slot(i) && "timelimit" != Slot(i)
    {
      assert Slot(i)[0] == 'd' && "capturelimit"[0] == 'c' && "fraglimit"[0] == 'f' && "timelimit"[0] == 't';
    }
  }

  /** Running the script and ending k maps leaves the limits as the fields of the maps say. */
  lemma RotationLimitsStick(maps: seq<Map>, st: State, k: nat, depth: nat)
    requires WellFormed(maps) && depth >= 2
    ensures LimitsStick(maps, k, Limits(st.vars), AfterMapEnds(maps, st, k, depth).vars)
  {
    LimitNamesApart();
    ValuesStick(maps, st, k, depth, "capturelimit");
    ValuesStick(maps, st, k, depth, "fraglimit");
    ValuesStick(maps, st, k, depth, "timelimit");
    LastLimitsStick(maps, k, Limits(st.vars), AfterMapEnds(maps, st, k, depth).vars);
  }

  // ---- Values repeat ----

  lemma {:induction false} LastSetAgain(maps: seq<Map>, j: nat, k: nat, name: string)
    requires |maps| > 0 && LastSet(maps, j, k, name).Some?
    ensures LastSet(maps, j, k + |maps|, name) == LastSet(maps, j, k, name)
  {
    PositionRepeats(|maps|, k - 1);
    if SetAt(maps, Position(|maps|, k - 1), name).None? {
      LastSetAgain(maps, j, k - 1, name);
    }
  }

  lemma {:induction false} NobodySets(maps: seq<Map>, j: nat, k: nat, i: nat, name: string)
    requires |maps| > 0 && j <= i < k && LastSet(maps, j, k, name).None?
    ensures SetAt(maps, Position(|maps|, i), name).None?
  {
    if i < k - 1 {
      NobodySets(maps, j, k - 1, i, name);
    }
  }

  lemma {:induction false} NeverSet(maps: seq<Map>, j: nat, k: nat, name: string)
    requires |maps| > 0 && forall i :: 0 <= i < |maps| ==> SetAt(maps, i, name).None?
    ensures LastSet(maps, j, k, name).None?
  {
    if k > j {
      NeverSet(maps, j, k - 1, name);
    }
  }

  /** Once every map has been played, the choice repeats with the length of the rotation. */
  lemma LastSetRepeats(maps: seq<Map>, j: nat, k: nat, name: string)
    requires |maps| > 0 && k >= j + |maps|
    ensures LastSet(maps, j, k + |maps|, name) == LastSet(maps, j, k, name)
  {
    if LastSet(maps, j, k, name).Some? {
      LastSetAgain(maps, j, k, name);
    } else {
      forall i | 0 <= i < |maps| ensures SetAt(maps, i, name).None? {
        LapVisitsOnce(|maps|, j, i, Visit(|maps|, j, i));
        NobodySets(maps, j, k, Visit(|maps|, j, i), name);
      }
      NeverSet(maps, j, k + |maps|, name);
    }
  }

  lemma ValuesEqual(maps: seq<Map>, st: State, i: nat, j: nat, depth: nat, name: string)
    requires WellFormed(maps) && depth >= 2 && NotASlot(name) && |maps| > 0
    requires LastSet(maps, 0, i + 1, name) == LastSet(maps, 0, j + 1, name)
    ensures Get(AfterMapEnds(maps, st, i, depth).vars, name) == Get(AfterMapEnds(maps, st, j, depth).vars, name)
  {
    ValuesStick(maps, st, i, depth, name);
    ValuesStick(maps, st, j, depth, name);
  }

  lemma LapLater(maps: seq<Map>, k: nat, name: string)
    requires WellFormed(maps) && k >= |maps| - 1
    ensures |maps| > 0 && LastSet(maps, 0, k + |maps| + 1, name) == LastSet(maps, 0, k + 1, name)
  {
    LastSetRepeats(maps, 0, k + 1, name);
    assert k + 1 + |maps| == k + |maps| + 1;
  }

  /** From the end of the first lap on, the values in force repeat lap by lap. */
  lemma ValuesRepeat(maps: seq<Map>, st: State, k: nat, depth: nat, name: string)
    requires WellFormed(maps) && depth >= 2 && NotASlot(name) && k >= |maps| - 1
    ensures Get(AfterMapEnds(maps, st, k + |maps|, depth).vars, name)
         == Get(AfterMapEnds(maps, st, k, depth).vars, name)
  {
    LapLater(maps, k, name);
    ValuesEqual(maps, st, k + |maps|, k, depth, name);
  }
}
