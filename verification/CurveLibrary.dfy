/** Cues refer to fades by number; the library says how long a running cue must be left
    alone until its light is off. */
module CurveLibrary {
  import opened Fade

  datatype CueAction = FadeAction(led: nat, fade: int) | DutyAction(led: nat, duty: real)

  type Loaded = map<int, Curve>

  function References(actions: seq<CueAction>): set<int> {
    set a | a in actions && a.FadeAction? :: a.fade
  }

  /** The curves a cue plays: references to fades that are not loaded are skipped. */
  function Curves(actions: seq<CueAction>, loaded: Loaded): set<Curve> {
    set i | i in References(actions) && i in loaded :: loaded[i]
  }

  /** A cue lasts as long as its longest curve. */
  ghost predicate Longest(d: int, cs: set<Curve>) {
    && d >= 0
    && (forall c | c in cs :: Length(c) <= d)
    && (d == 0 || exists c | c in cs :: Length(c) == d)
  }

  predicate AllDark(cs: set<Curve>, t: int) { forall c | c in cs :: DarkAt(c, t) }

  /** `z` is the least off instant of any of the curves from `t` on, or -1 if none has one. */
  ghost predicate EarliestZero(cs: set<Curve>, t: int, z: int) {
    if z < 0 then z == -1 && forall c, u | c in cs && u >= t :: !ZeroTime(c, u)
    else z >= t && (exists c | c in cs :: ZeroTime(c, z)) && forall c, u | c in cs && t <= u < z :: !ZeroTime(c, u)
  }

  function Samples(fades: map<int, Fade>): Loaded {
    map i | i in fades :: fades[i].samples
  }

  lemma SamplesWith(fades: map<int, Fade>, i: int, fade: Fade)
    ensures Samples(fades[i := fade]) == Samples(fades)[i := fade.samples]
  {
  }

  ghost predicate UsedFirst(indices: seq<int>, i: nat, actions: seq<CueAction>)
    requires i < |indices|
  {
    exists k | 0 <= k < |actions| ::
      actions[k].FadeAction? && actions[k].fade == indices[i]
      && References(actions[..k]) == set j | j in indices[..i]
  }

  /** Each entry is used by an action before which only earlier entries are used. */
  ghost predicate FirstUses(indices: seq<int>, actions: seq<CueAction>) {
    forall i | 0 <= i < |indices| :: UsedFirst(indices, i, actions)
  }

  lemma FirstUsesKept(indices: seq<int>, actions: seq<CueAction>, n: nat)
    requires n < |actions| && FirstUses(indices, actions[..n])
    ensures FirstUses(indices, actions[..n + 1])
  {
    var grown := actions[..n + 1];
    forall i | 0 <= i < |indices| ensures UsedFirst(indices, i, grown) {
      assert UsedFirst(indices, i, actions[..n]);
      var k :| 0 <= k < n && actions[..n][k].FadeAction? && actions[..n][k].fade == indices[i]
               && References(actions[..n][..k]) == set j | j in indices[..i];
      assert actions[..n][..k] == grown[..k] && grown[k] == actions[..n][k];
    }
  }

  lemma FirstUsesSnoc(indices: seq<int>, actions: seq<CueAction>, n: nat)
    requires n < |actions| && FirstUses(indices, actions[..n]) && actions[n].FadeAction?
    requires forall i :: i in indices <==> i in References(actions[..n])
    ensures FirstUses(indices + [actions[n].fade], actions[..n + 1])
  {
    var more, grown := indices + [actions[n].fade], actions[..n + 1];
    FirstUsesKept(indices, actions, n);
    forall i | 0 <= i < |more| ensures UsedFirst(more, i, grown) {
      if i < |indices| {
        assert UsedFirst(indices, i, grown);
        assert more[..i] == indices[..i];
      } else {
        assert more[..i] == indices && more[i] == actions[n].fade;
        assert grown[n] == actions[n] && grown[..n] == actions[..n];
        var used := set j | j in more[..i];
        assert forall j :: j in used <==> j in References(grown[..n]);
      }
    }
  }

  lemma OneMoreReference(actions: seq<CueAction>, k: nat)
    requires k < |actions|
    ensures References(actions[..k + 1])
         == References(actions[..k]) + if actions[k].FadeAction? then {actions[k].fade} else {}
  {
    assert actions[..k + 1] == actions[..k] + [actions[k]];
  }

  lemma OneMoreAction(actions: seq<CueAction>, k: nat, loaded: Loaded)
    requires k < |actions|
    ensures Curves(actions[..k + 1], loaded)
         == Curves(actions[..k], loaded)
            + if actions[k].FadeAction? && actions[k].fade in loaded then {loaded[actions[k].fade]} else {}
  {
    OneMoreReference(actions, k);
  }

  lemma LongestSnoc(d: int, actions: seq<CueAction>, k: nat, loaded: Loaded)
    requires k < |actions| && Longest(d, Curves(actions[..k], loaded))
    ensures var a := actions[k];
      Longest(if a.FadeAction? && a.fade in loaded && Length(loaded[a.fade]) > d then Length(loaded[a.fade]) else d,
              Curves(actions[..k + 1], loaded))
  {
    hide Curves;
    OneMoreAction(actions, k, loaded);
  }

  class Cue {
    const actions: seq<CueAction>
    var duration: int

    constructor Load(actions: seq<CueAction>, fades: map<int, Fade>)
      requires forall i | i in fades :: fades[i].Valid()
      ensures this.actions == actions && Longest(duration, Curves(actions, Samples(fades)))
    {
      this.actions := actions;
      duration := 0;
      new;
      CalculateDuration(fades);
    }

    method CalculateDuration(fades: map<int, Fade>)
      requires forall i | i in fades :: fades[i].Valid()
      modifies this
      ensures Longest(duration, Curves(actions, Samples(fades)))
    {
      assert Longest(0, Curves(actions[..0], Samples(fades)));
      ghost var loaded := Samples(fades);
      assert loaded.Keys == fades.Keys && forall i | i in fades :: fades[i].duration == Length(loaded[i]);
      hide *;
      duration := 0;
      for k := 0 to |actions|
        invariant Longest(duration, Curves(actions[..k], loaded))
        invariant forall i | i in fades :: fades[i].duration == Length(loaded[i])
      {
        LongestSnoc(duration, actions, k, loaded);
        var action := actions[k];
        if action.FadeAction? && action.fade in fades {
          var fade := fades[action.fade];
          if fade.duration > duration { duration := fade.duration; }
        }
      }
      assert actions[..|actions|] == actions;
    }

    /** Every referenced fade once, in order of first reference. */
    method GetFadeIndices() returns (indices: seq<int>)
      ensures forall i, j | 0 <= i < j < |indices| :: indices[i] != indices[j]
      ensures forall i :: i in indices <==> i in References(actions)
      ensures FirstUses(indices, actions)
    {
      indices := [];
      var seen := {};
      for k := 0 to |actions|
        invariant seen == References(actions[..k])
        invariant forall i :: i in indices <==> i in seen
        invariant forall i, j | 0 <= i < j < |indices| :: indices[i] != indices[j]
        invariant FirstUses(indices, actions[..k])
      {
        OneMoreReference(actions, k);
        if actions[k].FadeAction? && actions[k].fade !in seen {
          FirstUsesSnoc(indices, actions, k);
          indices := indices + [actions[k].fade];
          seen := seen + {actions[k].fade};
        } else {
          FirstUsesKept(indices, actions, k);
        }
      }
      assert actions[..|actions|] == actions;
    }
  }

  function Numbered<T>(files: seq<(int, T)>): map<int, T> {
    if files == [] then map[]
    else
      var (index, content), earlier := files[|files| - 1], Numbered(files[..|files| - 1]);
      if index >= 0 then earlier[index := content] else earlier
  }

  lemma NumberedSnoc<T>(files: seq<(int, T)>, k: nat)
    requires k < |files|
    ensures var (index, content), earlier := files[k], Numbered(files[..k]);
      Numbered(files[..k + 1]) == if index >= 0 then earlier[index := content] else earlier
  {
    assert files[..k + 1][..k] == files[..k];
  }

  lemma LoadedSnoc(loaded: Loaded, files: seq<(int, Curve)>, k: nat)
    requires k < |files|
    ensures loaded + Numbered(files[..k + 1])
         == if files[k].0 >= 0 then (loaded + Numbered(files[..k]))[files[k].0 := files[k].1]
            else loaded + Numbered(files[..k])
  {
    NumberedSnoc(files, k);
  }

  ghost predicate WaitMeets(cs: set<Curve>, duration: int, elapsed: int, wait: int) {
    if elapsed >= duration || AllDark(cs, elapsed) then wait == 0
    else EarliestZero(cs, elapsed, elapsed + wait) || (EarliestZero(cs, elapsed, -1) && elapsed + wait == duration)
  }

  lemma EarliestWith(cs: set<Curve>, c: Curve, t: int, z: int, zp: int)
    requires EarliestZero(cs, t, z) && NextZero(c, t, zp)
    ensures EarliestZero(cs + {c}, t, if zp >= 0 && (z < 0 || zp < z) then zp else z)
  {
  }

  /** An off instant always lies before the end of its cue. */
  lemma ZeroWithinCue(cs: set<Curve>, duration: int, t: int, z: int)
    requires EarliestZero(cs, t, z) && Longest(duration, cs)
    ensures z < duration || z == -1
  {
  }

  class CurveLibrary {
    var fades: map<int, Fade>
    var cues: map<int, Cue>

    /** A cue's length is that of its longest loaded curve. */
    ghost predicate Timed(i: int)
      requires i in cues
      reads this, cues[i]
    {
      Longest(cues[i].duration, Curves(cues[i].actions, Samples(fades)))
    }

    ghost predicate Valid()
      reads this, fades.Values, cues.Values
    {
      (forall i | i in fades :: fades[i].Valid()) && (forall i | i in cues :: Timed(i))
    }

    ghost function Playing(cue: int): set<Curve>
      requires cue in cues
      reads this
    {
      Curves(cues[cue].actions, Samples(fades))
    }

    constructor ()
      ensures Valid() && fades == map[] && cues == map[]
    {
      fades, cues := map[], map[];
    }

    /** Fades come first, because a cue's length needs them. Cues of an earlier load that are
        not loaded again keep the length their old curves gave them; without such cues every
        length is right. */
    method LoadFromDirs(fadeFiles: seq<(int, Curve)>, cueFiles: seq<(int, seq<CueAction>)>)
      requires Valid()
      modifies this
      ensures forall i | i in fades :: fades[i].Valid()
      ensures Samples(fades) == Samples(old(fades)) + Numbered(fadeFiles)
      ensures cues.Keys == old(cues).Keys + Numbered(cueFiles).Keys
      ensures forall i | i in Numbered(cueFiles) :: cues[i].actions == Numbered(cueFiles)[i] && Timed(i)
      ensures forall i | i in old(cues) && i !in Numbered(cueFiles) :: cues[i] == old(cues)[i]
      ensures old(cues).Keys <= Numbered(cueFiles).Keys ==> Valid()
    {
      LoadFades(fadeFiles);
      LoadCues(cueFiles);
    }

    /** Files without a number in their name are skipped; a later file replaces an earlier
        one of the same number. */
    method LoadFades(files: seq<(int, Curve)>)
      requires forall i | i in fades :: fades[i].Valid()
      modifies this`fades
      ensures forall i | i in fades :: fades[i].Valid()
      ensures Samples(fades) == Samples(old(fades)) + Numbered(files)
    {
      ghost var before := Samples(fades);
      assert before == before + Numbered(files[..0]);
      hide *;
      for k := 0 to |files|
        invariant forall i | i in fades :: fades[i].Valid()
        invariant Samples(fades) == before + Numbered(files[..k])
      {
        var (index, samples) := files[k];
        LoadedSnoc(before, files, k);
        if index >= 0 {
          var fade := new Fade.Load(samples);
          SamplesWith(fades, index, fade);
          fades := fades[index := fade];
        }
      }
      assert files[..|files|] == files;
    }

    method PutCue(index: int, actions: seq<CueAction>)
      requires forall i | i in fades :: fades[i].Valid()
      modifies this`cues
      ensures cues.Keys == old(cues).Keys + {index}
      ensures cues[index].actions == actions && Timed(index)
      ensures forall i | i in old(cues) && i != index :: cues[i] == old(cues)[i] && Timed(i) == old(Timed(i))
    {
      hide Longest, Curves, Samples, Fade.Valid;
      var cue := new Cue.Load(actions, fades);
      cues := cues[index := cue];
    }

    method LoadCues(files: seq<(int, seq<CueAction>)>)
      requires forall i | i in fades :: fades[i].Valid()
      modifies this`cues
      ensures cues.Keys == old(cues).Keys + Numbered(files).Keys
      ensures forall i | i in Numbered(files) :: cues[i].actions == Numbered(files)[i] && Timed(i)
      ensures forall i | i in old(cues) && i !in Numbered(files) :: cues[i] == old(cues)[i]
    {
      ghost var loaded: map<int, seq<CueAction>> := map[];
      assert loaded == Numbered(files[..0]);
      hide Numbered, Fade.Valid, Timed;
      for k := 0 to |files|
        invariant forall i | i in fades :: fades[i].Valid()
        invariant loaded == Numbered(files[..k])
        invariant cues.Keys == old(cues).Keys + loaded.Keys
        invariant forall i | i in loaded :: cues[i].actions == loaded[i] && Timed(i)
        invariant forall i | i in old(cues) && i !in loaded :: cues[i] == old(cues)[i]
      {
        var (index, actions) := files[k];
        NumberedSnoc(files, k);
        if index >= 0 {
          PutCue(index, actions);
          loaded := loaded[index := actions];
        }
      }
      assert files[..|files|] == files;
    }

    method GetCueNextZero(cue: int, elapsed: int) returns (z: int)
      requires Valid()
      ensures cue !in cues ==> z == -1
      ensures cue in cues ==> EarliestZero(Playing(cue), elapsed, z)
    {
      if cue !in cues { return -1; }
      z := -1;
      var actions := cues[cue].actions;
      ghost var loaded := Samples(fades);
      for k := 0 to |actions|
        invariant EarliestZero(Curves(actions[..k], loaded), elapsed, z)
      {
        OneMoreAction(actions, k, loaded);
        if actions[k].FadeAction? && actions[k].fade in fades {
          var zp := fades[actions[k].fade].NextZeroAfter(elapsed);
          EarliestWith(Curves(actions[..k], loaded), loaded[actions[k].fade], elapsed, z, zp);
          if zp >= 0 && (z < 0 || zp < z) { z := zp; }
        }
      }
      assert actions[..|actions|] == actions;
    }

    method IsCueAtZero(cue: int, elapsed: int) returns (dark: bool)
      requires Valid()
      ensures dark == (cue in cues ==> AllDark(Playing(cue), elapsed))
    {
      if cue !in cues { return true; }
      var actions := cues[cue].actions;
      ghost var loaded := Samples(fades);
      for k := 0 to |actions|
        invariant AllDark(Curves(actions[..k], loaded), elapsed)
      {
        OneMoreAction(actions, k, loaded);
        if actions[k].FadeAction? && actions[k].fade in fades {
          if !fades[actions[k].fade].IsZeroAt(elapsed) {
            assert loaded[actions[k].fade] in Curves(actions, loaded);
            return false;
          }
        }
      }
      assert actions[..|actions|] == actions;
      dark := true;
    }

    /** How long the light must be left alone: nothing for an unknown, finished or dark cue;
        else until some curve of the cue reaches an off sample, else until the cue ends. */
    method WaitForCueZeroOrEnd(cue: int, elapsed: int) returns (wait: int)
      requires Valid()
      ensures 0 <= wait && (wait > 0 ==> cue in cues && elapsed + wait <= cues[cue].duration)
      ensures cue in cues ==> WaitMeets(Playing(cue), cues[cue].duration, elapsed, wait)
    {
      if cue !in cues { return 0; }
      if elapsed >= cues[cue].duration { return 0; }
      var atZero := true;
      var actions := cues[cue].actions;
      ghost var loaded := Samples(fades);
      var k := 0;
      while k < |actions| && atZero
        invariant 0 <= k <= |actions|
        invariant if atZero then AllDark(Curves(actions[..k], loaded), elapsed) else !AllDark(Playing(cue), elapsed)
      {
        OneMoreAction(actions, k, loaded);
        if actions[k].FadeAction? && actions[k].fade in fades && !fades[actions[k].fade].IsZeroAt(elapsed) {
          assert loaded[actions[k].fade] in Playing(cue);
          atZero := false;
        }
        k := k + 1;
      }
      assert actions[..|actions|] == actions;
      if atZero { return 0; }
      var nextZero := GetCueNextZero(cue, elapsed);
      if nextZero >= 0 && nextZero <= cues[cue].duration { return nextZero - elapsed; }
      ZeroWithinCue(Playing(cue), cues[cue].duration, elapsed, nextZero);
      wait := cues[cue].duration - elapsed;
    }
  }

  /** For a cue that plays one curve the wait is exact: dark, or over, after the wait, and
      lit at every instant before. */
  lemma OneCurveWaitIsExact(c: Curve, elapsed: int, wait: int)
    requires elapsed >= 0 && WaitMeets({c}, Length(c), elapsed, wait) && wait >= 0
    ensures elapsed + wait >= Length(c) || DarkAt(c, elapsed + wait)
    ensures forall u | elapsed <= u < elapsed + wait :: !DarkAt(c, u)
  {
    if elapsed < Length(c) && !AllDark({c}, elapsed) {
      assert c in {c};
      var z := if EarliestZero({c}, elapsed, elapsed + wait) then elapsed + wait else -1;
      assert NextZero(c, elapsed, z);
      NextZeroMeetsSamples(c, elapsed, z);
    }
  }

  /** The contract leaves no choice: there is one wait. */
  lemma WaitIsDetermined(cs: set<Curve>, duration: int, elapsed: int, a: int, b: int)
    requires WaitMeets(cs, duration, elapsed, a) && WaitMeets(cs, duration, elapsed, b)
    requires elapsed >= 0 && a >= 0 && b >= 0
    ensures a == b
  {
  }

  predicate EndsDark(c: Curve) { c == [] || c[|c| - 1] == 0 }

  /** Seen from `t`, every curve goes off first at `z`, or is over by then and ends off. */
  ghost predicate Agree(cs: set<Curve>, t: int, z: int) {
    forall c | c in cs :: NextZero(c, t, z) || (Length(c) <= z && EndsDark(c))
  }

  lemma DarkAtSampleStart(c: Curve, k: nat)
    ensures DarkAt(c, At(k)) <==> ZeroTime(c, At(k)) || (Length(c) <= At(k) && EndsDark(c))
  {
    InForce(At(k));
    assert ZeroTime(c, At(k)) <==> k < |c| && c[k] == 0;
  }

  /** A wait that ends before its cue leaves the whole cue dark exactly when its curves agree
      on their next off instant. */
  lemma WaitEndsDarkExactly(cs: set<Curve>, duration: int, elapsed: int, wait: int)
    requires 0 <= elapsed < duration && !AllDark(cs, elapsed) && wait >= 0
    requires WaitMeets(cs, duration, elapsed, wait) && elapsed + wait < duration
    ensures AllDark(cs, elapsed + wait) <==> Agree(cs, elapsed, elapsed + wait)
  {
    var z := elapsed + wait;
    var first :| first in cs && ZeroTime(first, z);
    var k :| 0 <= k < |first| && At(k) == z && first[k] == 0;
    forall c | c in cs ensures DarkAt(c, z) <==> NextZero(c, elapsed, z) || (Length(c) <= z && EndsDark(c)) {
      DarkAtSampleStart(c, k);
    }
  }

  /** Whatever wait the contract allows for these two curves: it ends when one is off, and the
      other is lit then. */
  lemma TwoCurvesMayEndLit(wait: int)
    requires wait >= 0
    ensures var dim, lit := [5, 0], [5, 5];
      WaitMeets({dim, lit}, Length(lit), 0, wait) ==> wait == At(1) && !DarkAt(lit, wait) && wait < Length(lit)
  {
    var dim: Curve, lit: Curve := [5, 0], [5, 5];
    var cs := {dim, lit};
    assert dim in cs && lit in cs;
    assert !DarkAt(lit, 0);
    assert ZeroTime(dim, At(1));
    assert forall u | ZeroTime(dim, u) :: u == At(1);
    assert forall u :: !ZeroTime(lit, u);
    assert EarliestZero(cs, 0, At(1));
    if WaitMeets(cs, Length(lit), 0, wait) { WaitIsDetermined(cs, Length(lit), 0, wait, At(1)); }
  }
}
