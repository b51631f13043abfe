/** Turning what was said into a volume level: the clamp to [0, 100], the
    fixed volume words, and the "small bare numbers are tenths" rule. */
module Resolver {
  import opened Wrappers
  import opened Numerals

  const MinLevel := 0
  const MaxLevel := 100

  /** The words the `Level` slot may hold instead of a number. */
  const VolumeWords: map<string, int> := map["loud" := 90, "normal" := 60, "quiet" := 30]

  /** The word whose presence in the utterance marks a number as a percentage. */
  const PercentWord := "percent"

  function Distance(a: int, b: int): (d: nat) {
    if a < b then b - a else a - b
  }

  /** `bound_level`: the level limited to [MinLevel, MaxLevel]. */
  function Bound(level: int): (r: int)
    ensures MinLevel <= r <= MaxLevel
    ensures MinLevel <= level <= MaxLevel ==> r == level
    ensures level > MaxLevel ==> r == MaxLevel
    ensures level < MinLevel ==> r == MinLevel
  {
    if level > MaxLevel then MaxLevel
    else if level < MinLevel then MinLevel
    else level
  }

  /** The clamped level is the in-range level nearest to the input. */
  lemma BoundIsNearest(level: int, x: int)
    requires MinLevel <= x <= MaxLevel
    ensures Distance(level, Bound(level)) <= Distance(level, x)
  {
  }

  /** Clamping twice is clamping once. */
  lemma BoundIdempotent(level: int)
    ensures Bound(Bound(level)) == Bound(level)
  {
  }

  /** Python's `p in s` on strings: `p` occurs in `s` as a contiguous piece. */
  predicate HasSubstring(s: string, p: string)
    decreases |s|
  {
    |p| <= |s| && (s[..|p|] == p || HasSubstring(s[1..], p))
  }

  /** `p` occurs in `s` starting at index `k`. */
  predicate OccursAt(s: string, p: string, k: int) {
    0 <= k <= |s| - |p| && s[k..k + |p|] == p
  }

  /** HasSubstring agrees with the direct definition: `p` occurs somewhere in `s`. */
  lemma {:induction false} HasSubstringIffOccurs(s: string, p: string)
    ensures HasSubstring(s, p) <==> exists k :: OccursAt(s, p, k)
    decreases |s|
  {
    if |p| <= |s| && s[..|p|] != p {
      HasSubstringIffOccurs(s[1..], p);
      if HasSubstring(s[1..], p) {
        var k :| OccursAt(s[1..], p, k);
        assert s[k + 1..k + 1 + |p|] == s[1..][k..k + |p|];
        assert OccursAt(s, p, k + 1);
      }
      if exists k :: OccursAt(s, p, k) {
        var k :| OccursAt(s, p, k);
        assert k != 0;
        assert s[1..][k - 1..k - 1 + |p|] == s[k..k + |p|];
        assert OccursAt(s[1..], p, k - 1);
      }
    } else if |p| <= |s| {
      assert OccursAt(s, p, 0);
    }
  }

  /** `extract_spoken_volume_level`: a volume word maps to its fixed level; a
      number of at most 10 counts in tenths unless the utterance says
      "percent"; anything else falls back to the skill's default level; and
      the outcome is clamped. */
  function SpokenLevel(levelSlot: string, utterance: string, defaultLevel: int): (r: int)
    ensures MinLevel <= r <= MaxLevel
  {
    var level :=
      if levelSlot in VolumeWords then VolumeWords[levelSlot]
      else match ParseInt(levelSlot)
        case Some(n) => if n <= 10 && !HasSubstring(utterance, PercentWord) then n * 10 else n
        case None => defaultLevel;
    Bound(level)
  }

  /** The three words give exactly 90, 60 and 30, whatever else was said. */
  lemma WordLevels(utterance: string, defaultLevel: int)
    ensures SpokenLevel("loud", utterance, defaultLevel) == 90
    ensures SpokenLevel("normal", utterance, defaultLevel) == 60
    ensures SpokenLevel("quiet", utterance, defaultLevel) == 30
  {
  }

  /** Any slot that parses as an integer n, in whatever spelling ("5", "+5",
      "05"), gives 10 * n when n <= 10 and "percent" was not said, and n
      otherwise, clamped either way: no integer literal is a volume word. */
  lemma ParsedLevel(levelSlot: string, n: int, utterance: string, defaultLevel: int)
    requires ParseInt(levelSlot) == Some(n)
    ensures SpokenLevel(levelSlot, utterance, defaultLevel)
         == Bound(if n <= 10 && !HasSubstring(utterance, PercentWord) then 10 * n else n)
  {
    assert IsDigit(levelSlot[0]) || IsSign(levelSlot[0]);
    assert levelSlot !in VolumeWords;
  }

  /** A spoken number n, as `str(n)` writes it, gives 10 * n when n <= 10
      and "percent" was not said, and n otherwise, clamped either way. */
  lemma NumericLevel(n: int, utterance: string, defaultLevel: int)
    ensures SpokenLevel(DecimalString(n), utterance, defaultLevel)
         == Bound(if n <= 10 && !HasSubstring(utterance, PercentWord) then 10 * n else n)
  {
    ParseDecimalString(n);
    ParsedLevel(DecimalString(n), n, utterance, defaultLevel);
  }

  /** A slot that is neither a volume word nor an integer literal gives the
      clamped default level. */
  lemma UnparsableLevel(levelSlot: string, utterance: string, defaultLevel: int)
    requires levelSlot !in VolumeWords && !IsIntLiteral(levelSlot)
    ensures SpokenLevel(levelSlot, utterance, defaultLevel) == Bound(defaultLevel)
  {
  }

  /** Worked case: "5" said alone is 50. */
  lemma BareFiveExample()
    ensures SpokenLevel("5", "volume 5", 60) == 50
  {
    NumericLevel(5, "volume 5", 60);
    HasSubstringIffOccurs("volume 5", PercentWord);
    forall k | 0 <= k <= 1 ensures !OccursAt("volume 5", PercentWord, k) {
      assert "volume 5"[k] != PercentWord[0];
    }
    assert DecimalString(5) == "5";
  }

  /** Worked case: "5 percent" is 5. */
  lemma FivePercentExample()
    ensures SpokenLevel("5", "5 percent", 60) == 5
  {
    NumericLevel(5, "5 percent", 60);
    HasSubstringIffOccurs("5 percent", PercentWord);
    assert OccursAt("5 percent", PercentWord, 2);
    assert DecimalString(5) == "5";
  }

  /** Worked cases: "15" is above the tenths range and stays 15, and "xyz"
      falls back to the default level. */
  lemma FallbackExamples()
    ensures SpokenLevel("15", "volume 15", 60) == 15
    ensures SpokenLevel("xyz", "volume xyz", 42) == 42
  {
    assert AllDigits("15");
    assert "15"[..1] == "1" && "1"[..0] == "";
    assert DigitsValue("1") == 1;
    assert DigitsValue("15") == 15;
    assert !IsIntLiteral("xyz");
  }
}
