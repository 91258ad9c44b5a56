/** `normalize_bool`: reading a boolean out of an arbitrary configuration value. */
module Utils {
  import opened Strings
  import opened Values

  const TrueWords: set<string> := {"1", "true", "yes", "on", "y", "t"}
  const FalseWords: set<string> := {"0", "false", "no", "off", "n", "f"}

  /** The spelling of a string once stripped and lowercased. */
  function Normalized(s: string): string {
    Lower(Strip(s))
  }

  /** A value `normalize_bool` can interpret without falling back to the default. */
  predicate Recognised(v: Value) {
    match v
    case Bool(_) => true
    case Int(_) => true
    case Float(_, _) => true
    case Infinity(_) => true
    case NaN => true
    case Str(s) => Normalized(s) in TrueWords || Normalized(s) in FalseWords
    case _ => false
  }

  /**
   * Booleans pass through; numbers are true unless zero; strings are
   * looked up, once stripped and lowercased, among the true and the false
   * words; everything else gives `default`.
   */
  function NormalizeBool(v: Value, default: bool): (r: bool)
    ensures v.Bool? ==> r == v.b
    ensures v.Int? ==> r == (v.i != 0)
    ensures v.Float? ==> r == (v.x != 0.0)
    ensures v.Infinity? || v.NaN? ==> r
    ensures v.Str? && Normalized(v.s) in TrueWords ==> r
    ensures v.Str? && Normalized(v.s) in FalseWords && Normalized(v.s) !in TrueWords ==> !r
    ensures !Recognised(v) ==> r == default
  {
    match v
    case Bool(b) => b
    case Int(i) => if i == 0 then false else if i == 1 then true else Truthy(v)
    case Float(x, _) => if x == 0.0 then false else if x == 1.0 then true else Truthy(v)
    case Infinity(_) => Truthy(v)
    case NaN => Truthy(v)
    case Str(s) =>
      var n := Normalized(s);
      if n in TrueWords then true else if n in FalseWords then false else default
    case _ => default
  }

  /** No word is both true and false, so the lookup order does not matter. */
  lemma WordsDisjoint()
    ensures TrueWords * FalseWords == {}
  {
    assert forall w :: w in TrueWords ==> w !in FalseWords;
  }

  /** The default matters exactly for the values that are not recognised. */
  lemma DefaultMattersIffUnrecognised(v: Value)
    ensures NormalizeBool(v, true) != NormalizeBool(v, false) <==> !Recognised(v)
  {
    if v.Str? && (Normalized(v.s) in TrueWords || Normalized(v.s) in FalseWords) {
      WordsDisjoint();
    }
  }

  /** Normalising an already normalised value changes nothing, whatever the second default. */
  lemma NormalizeIdempotent(v: Value, d: bool, d2: bool)
    ensures NormalizeBool(Bool(NormalizeBool(v, d)), d2) == NormalizeBool(v, d)
  {
  }

  /** A word with no whitespace at either end is its own strip. */
  lemma StripUnpadded(s: string)
    requires s != [] && !IsSpace(s[0]) && !IsSpace(s[|s| - 1])
    ensures Strip(s) == s
  {
  }

  /** A word without whitespace at its ends and without capitals is its own normal form. */
  lemma NormalizedPlain(s: string)
    requires s != [] && !IsSpace(s[0]) && !IsSpace(s[|s| - 1])
    requires forall i :: 0 <= i < |s| ==> !('A' <= s[i] <= 'Z')
    ensures Normalized(s) == s
  {
    assert Strip(s) == s by { StripUnpadded(s); }
    assert Lower(s) == s;
  }

  /** The word "false" reads as false, whatever the default. */
  lemma NormalizeBoolFalseWord(d: bool)
    ensures !NormalizeBool(Str("false"), d)
  {
    NormalizedPlain("false");
    FalseNotTrue();
  }

  lemma FalseNotTrue()
    ensures "false" in FalseWords && "false" !in TrueWords
  {
  }

  lemma NormalizedTrue()
    ensures Normalized("True") == "true"
  {
    assert Strip("True") == "True" by { StripUnpadded("True"); }
    var l := Lower("True");
    assert l[0] == 't' && l[1] == 'r' && l[2] == 'u' && l[3] == 'e';
    assert l == "true";
  }

  lemma NormalizedFalse()
    ensures Normalized("False") == "false"
  {
    assert Strip("False") == "False" by { StripUnpadded("False"); }
    var l := Lower("False");
    assert l[0] == 'f' && l[1] == 'a' && l[2] == 'l' && l[3] == 's' && l[4] == 'e';
    assert l == "false";
  }

  /** Python's own spellings `str(True)` and `str(False)` read back as themselves. */
  lemma NormalizeBoolText(b: bool, d: bool)
    ensures NormalizeBool(Str(BoolText(b)), d) == b
  {
    if b {
      NormalizedTrue();
    } else {
      NormalizedFalse();
      WordsDisjoint();
    }
  }
}
