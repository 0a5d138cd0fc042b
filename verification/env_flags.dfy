/** The rule that turns the `DEBUG_MODE` and `INCLUDE_TEST_ALERTS`
    environment variables into booleans (redalert.py, lines 24 and 29): the
    value, or `'False'` when the variable is unset, is lower-cased and
    compared with `'true'`, `'1'` and `'t'`. */
module EnvFlags {
  import opened Options

  /** The value used when the variable is not set. */
  const Unset: string := "False"

  /** The lower-cased spellings that mean "on". */
  const OnSpellings: set<string> := {"true", "1", "t"}

  function LowerChar(c: char): char {
    if 'A' <= c <= 'Z' then (c as int + 32) as char else c
  }

  /** `s.lower()` on the ASCII letters; see the README for why no other
      character matters to the comparison below. */
  function Lower(s: string): (r: string)
    ensures |r| == |s|
    ensures forall i :: 0 <= i < |s| ==> r[i] == LowerChar(s[i])
  {
    if |s| == 0 then "" else [LowerChar(s[0])] + Lower(s[1..])
  }

  /** `value.lower() in ('true', '1', 't')`. */
  predicate IsOn(value: string) {
    Lower(value) in OnSpellings
  }

  /** `os.getenv(name, 'False').lower() in ('true', '1', 't')`, given what
      the environment holds for `name`. */
  function EnvFlag(raw: Option<string>): (on: bool)
    ensures raw.None? ==> !on
    ensures raw.Some? ==> (on <==> IsOn(raw.value))
  {
    match raw
    case None => IsOn(Unset)
    case Some(v) => IsOn(v)
  }

  /** The spellings accepted, written out without lower-casing: "1", "t"
      in either case, or "true" with each letter in either case. */
  predicate OnSpelling(v: string) {
    || v == "1"
    || (|v| == 1 && (v[0] == 't' || v[0] == 'T'))
    || (&& |v| == 4
        && (v[0] == 't' || v[0] == 'T')
        && (v[1] == 'r' || v[1] == 'R')
        && (v[2] == 'u' || v[2] == 'U')
        && (v[3] == 'e' || v[3] == 'E'))
  }

  /** A flag value is on exactly when it is one of the case variants of
      "true", "t" or "1"; every other value, "False" and "yes" included,
      is off. */
  lemma IsOnSpellings(v: string)
    ensures IsOn(v) <==> OnSpelling(v)
  {
    var l := Lower(v);
    if |v| == 1 {
      assert l == [LowerChar(v[0])];
    } else if |v| == 4 {
      assert l == [LowerChar(v[0]), LowerChar(v[1]), LowerChar(v[2]), LowerChar(v[3])];
    } else {
      assert |l| != 1 && |l| != 4;
    }
  }

}
