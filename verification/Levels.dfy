/** internal/isolation/levels.go: isolation levels, and the check that their fallbacks do not go
    round in circles. */
module Levels {

  const SIMULATED := "simulated"
  const RUNC := "runc"
  const GRANULARITY_CPU_MILLI := 50
  const GRANULARITY_MEM_MIB := 64

  datatype LevelSpec = LevelSpec(runtimeClassName: string, cpuMilli: int, memMiB: int, fallbacks: seq<string>)

  datatype Config = Config(levels: map<string, LevelSpec>)

  /** A level that is not configured has no fallbacks. */
  function Fallbacks(c: Config, level: string): seq<string> {
    if level in c.levels then c.levels[level].fallbacks else []
  }

  // ---- Walks along fallbacks ----

  predicate IsWalk(c: Config, w: seq<string>) {
    w != [] && forall i | 0 <= i < |w| - 1 :: w[i + 1] in Fallbacks(c, w[i])
  }

  /** The walk ends where it, or the path that led to it, has been before. */
  predicate ComesBack(w: seq<string>, seen: set<string>)
    requires w != []
  {
    w[|w| - 1] in seen || exists i | 0 <= i < |w| - 1 :: w[i] == w[|w| - 1]
  }

  ghost predicate LeadsBack(c: Config, level: string, seen: set<string>) {
    exists w :: IsWalk(c, w) && w[0] == level && ComesBack(w, seen)
  }

  /** The fallback graph has a cycle. */
  ghost predicate HasCycle(c: Config) {
    exists w :: IsWalk(c, w) && |w| > 1 && w[0] == w[|w| - 1]
  }

  lemma SeenLeadsBack(c: Config, level: string, seen: set<string>)
    requires level in seen
    ensures LeadsBack(c, level, seen)
  {
    assert IsWalk(c, [level]) && ComesBack([level], seen);
  }

  /** What is reached through a fallback is reached. */
  lemma FallbackLeadsBack(c: Config, level: string, fb: string, seen: set<string>)
    requires fb in Fallbacks(c, level) && LeadsBack(c, fb, seen + {level})
    ensures LeadsBack(c, level, seen)
  {
    var w :| IsWalk(c, w) && w[0] == fb && ComesBack(w, seen + {level});
    var longer := [level] + w;
    assert forall i | 0 <= i < |longer| - 1 :: longer[i + 1] == w[i];
    assert forall i | 0 <= i < |longer| - 1 :: longer[i + 1] in Fallbacks(c, longer[i]);
    var last := w[|w| - 1];
    assert longer[|longer| - 1] == last;
    if last == level {
      assert longer[0] == last;
    } else if last !in seen {
      var i :| 0 <= i < |w| - 1 && w[i] == last;
      assert longer[i + 1] == last;
    }
    assert ComesBack(longer, seen);
  }

  /** There is no other way to come back. */
  lemma LeadsBackThroughFallback(c: Config, level: string, seen: set<string>)
    requires LeadsBack(c, level, seen) && level !in seen
    ensures exists fb | fb in Fallbacks(c, level) :: LeadsBack(c, fb, seen + {level})
  {
    var w :| IsWalk(c, w) && w[0] == level && ComesBack(w, seen);
    assert |w| > 1;
    var rest := w[1..];
    assert w[1] in Fallbacks(c, level);
    assert IsWalk(c, rest) by {
      forall i | 0 <= i < |rest| - 1
        ensures rest[i + 1] in Fallbacks(c, rest[i])
      {
        assert w[i + 2] in Fallbacks(c, w[i + 1]);
      }
    }
    assert ComesBack(rest, seen + {level}) by {
      var last := w[|w| - 1];
      assert rest[|rest| - 1] == last;
      if last !in seen {
        var i :| 0 <= i < |w| - 1 && w[i] == last;
        assert i > 0 ==> rest[i - 1] == last;
      }
    }
    assert LeadsBack(c, w[1], seen + {level});
  }

  // ---- The check ----

  /** How many levels can still be added to the path. */
  ghost function Unseen(c: Config, seen: set<string>): set<string> {
    c.levels.Keys - seen
  }

  lemma FewerUnseen(c: Config, seen: set<string>, level: string)
    requires level !in seen && level in c.levels
    ensures |Unseen(c, seen + {level})| < |Unseen(c, seen)|
  {
    assert Unseen(c, seen) == Unseen(c, seen + {level}) + {level};
  }

  /** One run of the check: the path so far is shared by all recursive calls, which add to it on
      their way down and take back what they added on their way up. */
  class CycleCheck {
    const c: Config
    var seen: set<string>

    constructor (c: Config)
      ensures this.c == c && seen == {}
    {
      this.c := c;
      seen := {};
    }

    /** checkNoCycle: true means that a cycle was found. */
    method CheckNoCycle(origin: string, cur: string) returns (found: bool)
      requires origin == cur || origin in seen
      modifies this
      ensures found <==> LeadsBack(c, cur, old(seen))
      ensures !found ==> seen == old(seen)
      decreases |Unseen(c, seen)|
    {
      if cur in seen {
        SeenLeadsBack(c, cur, seen);
        return true;
      }
      ghost var path := seen;
      seen := seen + {cur};
      var fallbacks := Fallbacks(c, cur);
      for i := 0 to |fallbacks|
        invariant seen == path + {cur}
        invariant forall j | 0 <= j < i :: !LeadsBack(c, fallbacks[j], seen)
      {
        if fallbacks[i] == origin {
          SeenLeadsBack(c, origin, seen);
          FallbackLeadsBack(c, cur, origin, path);
          return true;
        }
        FewerUnseen(c, path, cur);
        var deeper := CheckNoCycle(origin, fallbacks[i]);
        if deeper {
          FallbackLeadsBack(c, cur, fallbacks[i], path);
          return true;
        }
      }
      seen := seen - {cur};
      if LeadsBack(c, cur, path) {
        LeadsBackThroughFallback(c, cur, path);
      }
      return false;
    }
  }

  /** Checking every level finds a cycle if and only if there is one. */
  lemma CyclesAreFoundFromSomewhere(c: Config)
    ensures HasCycle(c) <==> exists level | level in c.levels :: LeadsBack(c, level, {})
  {
    if HasCycle(c) {
      var w :| IsWalk(c, w) && |w| > 1 && w[0] == w[|w| - 1];
      assert w[1] in Fallbacks(c, w[0]);
      assert ComesBack(w, {});
      assert LeadsBack(c, w[0], {}) && w[0] in c.levels;
    }
    if level :| level in c.levels && LeadsBack(c, level, {}) {
      var w :| IsWalk(c, w) && w[0] == level && ComesBack(w, {});
      var i :| 0 <= i < |w| - 1 && w[i] == w[|w| - 1];
      TailOfWalk(c, w, i);
    }
  }

  lemma TailOfWalk(c: Config, w: seq<string>, i: nat)
    requires IsWalk(c, w) && i < |w| - 1 && w[i] == w[|w| - 1]
    ensures HasCycle(c)
  {
    var round := w[i..];
    forall j | 0 <= j < |round| - 1
      ensures round[j + 1] in Fallbacks(c, round[j])
    {
      assert w[i + j + 1] in Fallbacks(c, w[i + j]);
    }
    assert IsWalk(c, round) && round[0] == round[|round| - 1];
  }

  // ---- Validation ----

  datatype ConfigError =
    | NoError
    | NoRuntimeClass(level: string)
    | NotAligned(level: string)
    | UndefinedFallback(level: string, fallback: string)
    | CyclicFallbacks(level: string)

  predicate HasRuntimeClass(c: Config, level: string)
    requires level in c.levels
  {
    c.levels[level].runtimeClassName != "" || level == SIMULATED || level == RUNC
  }

  predicate IsAligned(s: LevelSpec) {
    s.cpuMilli % GRANULARITY_CPU_MILLI == 0 && s.memMiB % GRANULARITY_MEM_MIB == 0
  }

  predicate LevelIsSound(c: Config, level: string)
    requires level in c.levels
  {
    HasRuntimeClass(c, level) && IsAligned(c.levels[level])
    && forall fb | fb in c.levels[level].fallbacks :: fb in c.levels
  }

  /** The error names something that is really wrong. */
  ghost predicate ErrorIsReal(c: Config, e: ConfigError) {
    match e
    case NoError => false
    case NoRuntimeClass(l) => l in c.levels && !HasRuntimeClass(c, l)
    case NotAligned(l) => l in c.levels && !IsAligned(c.levels[l])
    case UndefinedFallback(l, fb) => l in c.levels && fb in c.levels[l].fallbacks && fb !in c.levels
    case CyclicFallbacks(l) => l in c.levels && LeadsBack(c, l, {}) && HasCycle(c)
  }

  method CheckLevel(c: Config, level: string) returns (e: ConfigError)
    requires level in c.levels
    ensures e.NoError? <==> LevelIsSound(c, level)
    ensures !e.NoError? ==> ErrorIsReal(c, e) && !e.CyclicFallbacks?
  {
    var spec := c.levels[level];
    if spec.runtimeClassName == "" && level != SIMULATED && level != RUNC {
      return NoRuntimeClass(level);
    }
    if !IsAligned(spec) {
      return NotAligned(level);
    }
    for i := 0 to |spec.fallbacks|
      invariant forall j | 0 <= j < i :: spec.fallbacks[j] in c.levels
    {
      if spec.fallbacks[i] !in c.levels {
        return UndefinedFallback(level, spec.fallbacks[i]);
      }
    }
    return NoError;
  }

  /** Validate: a configuration passes if and only if each of its levels is sound and no chain of
      fallbacks goes round; what is reported instead is really wrong. Levels are visited in any
      order. */
  method Validate(c: Config) returns (e: ConfigError)
    ensures e.NoError? <==> (forall level | level in c.levels :: LevelIsSound(c, level)) && !HasCycle(c)
    ensures !e.NoError? ==> ErrorIsReal(c, e)
  {
    var left := c.levels.Keys;
    while left != {}
      invariant left <= c.levels.Keys
      invariant forall level | level in c.levels && level !in left :: LevelIsSound(c, level)
    {
      var level :| level in left;
      left := left - {level};
      e := CheckLevel(c, level);
      if !e.NoError? {
        return;
      }
    }

    left := c.levels.Keys;
    while left != {}
      invariant left <= c.levels.Keys
      invariant forall level | level in c.levels && level !in left :: !LeadsBack(c, level, {})
    {
      var level :| level in left;
      left := left - {level};
      var check := new CycleCheck(c);
      var found := check.CheckNoCycle(level, level);
      if found {
        CyclesAreFoundFromSomewhere(c);
        return CyclicFallbacks(level);
      }
    }
    CyclesAreFoundFromSomewhere(c);
    return NoError;
  }
}
