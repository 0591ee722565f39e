/**
 * The preference form of the strategy recommender: the user's preferences
 * (weekly hours, skill level, selected leverage factors), the rule that
 * toggles one lever in or out of the selection, the partial-update merge that
 * stores a new preferences record and hands it to the page, and the Italian
 * display labels of the two closed domains.
 */
module PreferenceForm {
  import opened Wrappers

  /** The five leverage factors a user can select. */
  datatype Lever = Skills | Time | Network | Content | Automation

  /** The three skill levels, from least to most experienced. */
  datatype SkillLevel = Beginner | Intermediate | Advanced

  /** A user's preferences; `leverage` is the selection in the order it was made. */
  datatype Preferences = Preferences(weeklyHours: int, skillLevel: SkillLevel, leverage: seq<Lever>)

  /** A partial update: `None` is a field the update does not mention. */
  datatype PartialPreferences = PartialPreferences(
    weeklyHours: Option<int>,
    skillLevel: Option<SkillLevel>,
    leverage: Option<seq<Lever>>)

  /** The hour slider's range. */
  const MinWeeklyHours: int := 1
  const MaxWeeklyHours: int := 15

  /** The preferences the form starts from when the page supplies none. */
  const DefaultPreferences: Preferences := Preferences(4, Beginner, [Skills, Time, Content])

  // ---------------------------------------------------------------------------
  // Well-formed selections and preferences

  /** No lever occurs twice in `s`. */
  predicate Distinct(s: seq<Lever>) {
    forall i, j :: 0 <= i < j < |s| ==> s[i] != s[j]
  }

  /** A selection the form keeps: at least one lever, none twice. */
  predicate ValidLeverage(s: seq<Lever>) {
    |s| > 0 && Distinct(s)
  }

  /** Preferences the form's controls can produce. */
  predicate ValidPreferences(p: Preferences) {
    MinWeeklyHours <= p.weeklyHours <= MaxWeeklyHours && ValidLeverage(p.leverage)
  }

  lemma DefaultPreferencesValid()
    ensures ValidPreferences(DefaultPreferences)
    ensures |DefaultPreferences.leverage| == 3
  {
  }

  // ---------------------------------------------------------------------------
  // The partial-update merge

  /** The preferences with every field `next` mentions replaced by its value. */
  function Merge(current: Preferences, next: PartialPreferences): (r: Preferences)
    ensures next.weeklyHours.Some? ==> r.weeklyHours == next.weeklyHours.value
    ensures next.weeklyHours.None? ==> r.weeklyHours == current.weeklyHours
    ensures next.skillLevel.Some? ==> r.skillLevel == next.skillLevel.value
    ensures next.skillLevel.None? ==> r.skillLevel == current.skillLevel
    ensures next.leverage.Some? ==> r.leverage == next.leverage.value
    ensures next.leverage.None? ==> r.leverage == current.leverage
  {
    Preferences(
      next.weeklyHours.GetOr(current.weeklyHours),
      next.skillLevel.GetOr(current.skillLevel),
      next.leverage.GetOr(current.leverage))
  }

  /** An update that mentions no field leaves the preferences as they are. */
  lemma MergeNothing(current: Preferences)
    ensures Merge(current, PartialPreferences(None, None, None)) == current
  {
  }

  /** Applying the same partial update twice is applying it once. */
  lemma MergeIdempotent(current: Preferences, next: PartialPreferences)
    ensures Merge(Merge(current, next), next) == Merge(current, next)
  {
  }

  /** An update that mentions one field changes that field and no other. */
  lemma MergeOneField(current: Preferences, h: int, level: SkillLevel, s: seq<Lever>)
    ensures Merge(current, PartialPreferences(Some(h), None, None)) == current.(weeklyHours := h)
    ensures Merge(current, PartialPreferences(None, Some(level), None)) == current.(skillLevel := level)
    ensures Merge(current, PartialPreferences(None, None, Some(s))) == current.(leverage := s)
  {
  }

  // ---------------------------------------------------------------------------
  // Removing a lever from a selection

  /** `s` with every occurrence of `x` taken out, the rest in their order. */
  function Without(s: seq<Lever>, x: Lever): (r: seq<Lever>)
    ensures multiset(r) == multiset(s)[x := 0]
    ensures x !in r
    ensures forall y :: y != x ==> (y in r <==> y in s)
  {
    if s == [] then []
    else
      assert s == [s[0]] + s[1..];
      if s[0] == x then Without(s[1..], x) else [s[0]] + Without(s[1..], x)
  }

  /** Removal works piece by piece, so it keeps the order of what remains. */
  lemma {:induction false} WithoutConcat(a: seq<Lever>, b: seq<Lever>, x: Lever)
    ensures Without(a + b, x) == Without(a, x) + Without(b, x)
  {
    if a == [] {
      assert a + b == b;
    } else {
      assert (a + b)[0] == a[0];
      assert (a + b)[1..] == a[1..] + b;
      WithoutConcat(a[1..], b, x);
    }
  }

  /** Removing a lever that is not selected changes nothing. */
  lemma {:induction false} WithoutAbsent(s: seq<Lever>, x: Lever)
    requires x !in s
    ensures Without(s, x) == s
  {
    if s != [] {
      assert s[1..] == s[1..];
      assert s == [s[0]] + s[1..];
      WithoutAbsent(s[1..], x);
    }
  }

  /** In a selection without repeats, removing the lever at `i` closes the gap at `i`. */
  lemma {:induction false} WithoutAt(s: seq<Lever>, i: int)
    requires Distinct(s)
    requires 0 <= i < |s|
    ensures Without(s, s[i]) == s[..i] + s[i + 1..]
  {
    var x, pre, post := s[i], s[..i], s[i + 1..];
    assert s == pre + ([x] + post);
    assert x !in pre by {
      forall k | 0 <= k < |pre| ensures pre[k] != x { assert pre[k] == s[k]; }
    }
    assert x !in post by {
      forall k | 0 <= k < |post| ensures post[k] != x { assert post[k] == s[i + 1 + k]; }
    }
    WithoutConcat(pre, [x] + post, x);
    WithoutConcat([x], post, x);
    WithoutAbsent(pre, x);
    WithoutAbsent(post, x);
    assert Without([x], x) == [];
  }

  /** Putting `h` in front of a selection without repeats that lacks `h` keeps it without repeats. */
  lemma DistinctCons(h: Lever, w: seq<Lever>)
    requires Distinct(w)
    requires h !in w
    ensures Distinct([h] + w)
  {
  }

  /** Removal never introduces a repeat. */
  lemma {:induction false} WithoutDistinct(s: seq<Lever>, x: Lever)
    requires Distinct(s)
    ensures Distinct(Without(s, x))
  {
    if s != [] {
      assert Distinct(s[1..]) by {
        forall i, j | 0 <= i < j < |s[1..]| ensures s[1..][i] != s[1..][j] {
          assert s[i + 1] != s[j + 1];
        }
      }
      WithoutDistinct(s[1..], x);
      if s[0] != x {
        assert s[0] !in s[1..] by {
          forall k | 0 <= k < |s[1..]| ensures s[1..][k] != s[0] { assert s[0] != s[k + 1]; }
        }
        DistinctCons(s[0], Without(s[1..], x));
      }
    }
  }

  // ---------------------------------------------------------------------------
  // The leverage toggle

  /**
   * The selection after clicking `lever`: an inactive lever is appended, an
   * active one is removed, and removing the only selected lever is refused
   * (`None`: no update is issued).
   */
  function Toggle(lever: Lever, s: seq<Lever>): (r: Option<seq<Lever>>)
    ensures r.None? <==> s == [lever]
    ensures r.Some? ==> (lever in r.value <==> lever !in s)
    ensures r.Some? ==> forall y :: y != lever ==> (y in r.value <==> y in s)
  {
    var alreadyActive := lever in s;
    if alreadyActive && |s| <= 1 then None
    else if alreadyActive then Some(Without(s, lever))
    else Some(s + [lever])
  }

  /** Clicking an inactive lever appends it; the earlier entries stay as they were. */
  lemma ToggleAppendsInactive(lever: Lever, s: seq<Lever>)
    requires lever !in s
    ensures Toggle(lever, s).Some?
    ensures |Toggle(lever, s).value| == |s| + 1
    ensures Toggle(lever, s).value[..|s|] == s
    ensures Toggle(lever, s).value[|s|] == lever
  {
  }

  /** Clicking the only selected lever does nothing. */
  lemma ToggleRefusesLast(lever: Lever)
    ensures Toggle(lever, [lever]) == None
  {
  }

  /**
   * Clicking an active lever while two or more are selected removes it; the
   * other levers keep their relative order.
   */
  lemma ToggleRemovesActive(s: seq<Lever>, i: int)
    requires Distinct(s)
    requires 0 <= i < |s|
    requires |s| >= 2
    ensures Toggle(s[i], s) == Some(s[..i] + s[i + 1..])
  {
    WithoutAt(s, i);
  }

  /** Without repeats, every issued update adds or removes exactly one lever. */
  lemma ToggleLength(lever: Lever, s: seq<Lever>)
    requires Distinct(s)
    ensures Toggle(lever, s).Some? ==>
      |Toggle(lever, s).value| == if lever in s then |s| - 1 else |s| + 1
  {
    if lever in s && |s| >= 2 {
      var i :| 0 <= i < |s| && s[i] == lever;
      WithoutAt(s, i);
    }
  }

  /** A toggle never introduces a repeat. */
  lemma ToggleKeepsDistinct(lever: Lever, s: seq<Lever>)
    requires Distinct(s)
    ensures Toggle(lever, s).Some? ==> Distinct(Toggle(lever, s).value)
  {
    if lever in s {
      WithoutDistinct(s, lever);
    } else {
      var r := s + [lever];
      forall i, j | 0 <= i < j < |r| ensures r[i] != r[j] {
        if j == |s| {
          assert r[i] == s[i];
        } else {
          assert r[i] == s[i] && r[j] == s[j];
        }
      }
    }
  }

  /**
   * A selection without repeats never becomes empty: every update the toggle
   * issues has at least one lever, even when it starts from none.
   */
  lemma ToggleKeepsNonEmpty(lever: Lever, s: seq<Lever>)
    requires Distinct(s)
    ensures Toggle(lever, s).Some? ==> |Toggle(lever, s).value| > 0
  {
    ToggleLength(lever, s);
  }

  /** Hence the toggle keeps a valid selection valid. */
  lemma ToggleKeepsValid(lever: Lever, s: seq<Lever>)
    requires ValidLeverage(s)
    ensures Toggle(lever, s).Some? ==> ValidLeverage(Toggle(lever, s).value)
  {
    ToggleKeepsNonEmpty(lever, s);
    ToggleKeepsDistinct(lever, s);
  }

  /**
   * The floor of one relies on the selection having no repeats: with the
   * same lever selected twice, clicking it empties the selection.
   */
  lemma ToggleEmptiesRepeatedLever()
    ensures Toggle(Skills, [Skills, Skills]) == Some([])
  {
  }

  /** Adding an inactive lever and clicking it again restores the selection. */
  lemma ToggleUndoesAdd(lever: Lever, s: seq<Lever>)
    requires lever !in s
    requires |s| > 0
    ensures Toggle(lever, s) == Some(s + [lever])
    ensures Toggle(lever, s + [lever]) == Some(s)
  {
    var t := s + [lever];
    assert t[|s|] == lever;
    WithoutConcat(s, [lever], lever);
    WithoutAbsent(s, lever);
    assert [lever][1..] == [];
    assert Without([lever], lever) == [];
    assert Without(t, lever) == s + [];
    assert s + [] == s;
  }

  /** Removing an active lever and clicking it again moves it to the end. */
  lemma ToggleReAddMovesToEnd(s: seq<Lever>, i: int)
    requires Distinct(s)
    requires 0 <= i < |s|
    requires |s| >= 2
    ensures Toggle(s[i], s).Some?
    ensures Toggle(s[i], Toggle(s[i], s).value) == Some(s[..i] + s[i + 1..] + [s[i]])
  {
    WithoutAt(s, i);
  }

  // ---------------------------------------------------------------------------
  // Display labels

  function SkillLabel(level: SkillLevel): (r: string)
    ensures |r| > 0
  {
    match level
    case Beginner => "Principiante"
    case Intermediate => "Intermedio"
    case Advanced => "Avanzato"
  }

  function LeverLabel(lever: Lever): (r: string)
    ensures |r| > 0
  {
    match lever
    case Skills => "Competenze"
    case Time => "Tempo"
    case Network => "Network"
    case Content => "Contenuti"
    case Automation => "Automazioni"
  }

  /** Distinct skill levels are shown with distinct labels. */
  lemma SkillLabelInjective(a: SkillLevel, b: SkillLevel)
    requires SkillLabel(a) == SkillLabel(b)
    ensures a == b
  {
  }

  /** Distinct levers are shown with distinct labels. */
  lemma LeverLabelInjective(a: Lever, b: Lever)
    requires LeverLabel(a) == LeverLabel(b)
    ensures a == b
  {
  }

  // ---------------------------------------------------------------------------
  // The form component

  /**
   * The form's state: the current preferences and every record handed to the
   * page's `onChange` callback, oldest first.
   */
  class Form {
    var preferences: Preferences
    var emitted: seq<Preferences>

    /** The page's copy is the form's own: the last record handed over is the stored one. */
    ghost predicate Synced()
      reads this
    {
      emitted == [] || emitted[|emitted| - 1] == preferences
    }

    /** A form started from `initial`, or from the defaults when the page gives none. */
    constructor (initial: Option<Preferences>)
      ensures preferences == initial.GetOr(DefaultPreferences)
      ensures emitted == []
      ensures Synced()
      ensures initial.None? ==> ValidPreferences(preferences)
    {
      preferences := initial.GetOr(DefaultPreferences);
      emitted := [];
    }

    /** Store the merged record and hand exactly that record to `onChange`. */
    method Update(next: PartialPreferences)
      modifies this
      ensures preferences == Merge(old(preferences), next)
      ensures emitted == old(emitted) + [preferences]
      ensures Synced()
    {
      var merged := Merge(preferences, next);
      preferences := merged;
      emitted := emitted + [merged];
    }

    /** Moving the hour slider to `hours`. */
    method SelectHours(hours: int)
      requires MinWeeklyHours <= hours <= MaxWeeklyHours
      modifies this
      ensures preferences == old(preferences).(weeklyHours := hours)
      ensures emitted == old(emitted) + [preferences]
      ensures Synced()
      ensures old(ValidPreferences(preferences)) ==> ValidPreferences(preferences)
    {
      Update(PartialPreferences(Some(hours), None, None));
    }

    /** Clicking the button of skill level `level`. */
    method SelectSkill(level: SkillLevel)
      modifies this
      ensures preferences == old(preferences).(skillLevel := level)
      ensures emitted == old(emitted) + [preferences]
      ensures Synced()
      ensures old(ValidPreferences(preferences)) ==> ValidPreferences(preferences)
    {
      Update(PartialPreferences(None, Some(level), None));
    }

    /** Clicking the button of `lever`. */
    method ClickLever(lever: Lever)
      modifies this
      ensures old(preferences.leverage) == [lever] ==>
        preferences == old(preferences) && emitted == old(emitted)
      ensures old(preferences.leverage) != [lever] ==>
        preferences == old(preferences).(leverage := Toggle(lever, old(preferences.leverage)).value) &&
        emitted == old(emitted) + [preferences]
      ensures old(Synced()) ==> Synced()
      ensures old(ValidPreferences(preferences)) ==> ValidPreferences(preferences)
    {
      if ValidLeverage(preferences.leverage) {
        ToggleKeepsValid(lever, preferences.leverage);
      }
      var leverage := Toggle(lever, preferences.leverage);
      if leverage.Some? {
        Update(PartialPreferences(None, None, Some(leverage.value)));
      }
    }
  }
}
