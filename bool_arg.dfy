/**
 The tolerant boolean validator used as an argparse `type=` converter for
 `--data_augumentation` and `--batch_normalization` (train_a.py:48-54).
 */
module BoolArg {
  import opened Ascii

  /** The exception argparse turns into a usage error. */
  datatype ArgError = ArgumentTypeError(message: string)

  datatype Result<T> = Ok(value: T) | Err(error: ArgError)

  const BoolExpected: string := "Boolean value expected."

  /** The lower-case spellings accepted as true, and as false. */
  const TrueWords: seq<string> := ["yes", "true", "t", "1"]
  const FalseWords: seq<string> := ["no", "false", "f", "0"]

  /** `v` is, up to ASCII letter case, one of `words`. */
  predicate SpellsOneOf(v: string, words: seq<string>) {
    exists j :: 0 <= j < |words| && EqualIgnoringCase(v, words[j])
  }

  /** Every accepted word is already in lower case. */
  lemma WordsAreLowerCase()
    ensures forall j :: 0 <= j < |TrueWords| ==> IsLowerCase(TrueWords[j])
    ensures forall j :: 0 <= j < |FalseWords| ==> IsLowerCase(FalseWords[j])
  {
  }

  /** For a list of lower-case words, membership of the lowered input is a
      case-insensitive match against one of them. */
  lemma {:induction false} LoweredInIff(v: string, words: seq<string>)
    requires forall j :: 0 <= j < |words| ==> IsLowerCase(words[j])
    ensures ToLower(v) in words <==> SpellsOneOf(v, words)
  {
    if ToLower(v) in words {
      var j :| 0 <= j < |words| && words[j] == ToLower(v);
      ToLowerOfLowerCase(words[j]);
      EqualIgnoringCaseIff(v, words[j]);
    }
    if SpellsOneOf(v, words) {
      var j :| 0 <= j < |words| && EqualIgnoringCase(v, words[j]);
      ToLowerOfLowerCase(words[j]);
      EqualIgnoringCaseIff(v, words[j]);
    }
  }

  /** `str2bool(v)`: true for yes/true/t/1, false for no/false/f/0, in any
      letter case; every other string is rejected with the boolean error. */
  function Str2Bool(v: string): (r: Result<bool>)
    ensures r == Ok(true) <==> SpellsOneOf(v, TrueWords)
    ensures r == Ok(false) <==> !SpellsOneOf(v, TrueWords) && SpellsOneOf(v, FalseWords)
    ensures r.Err? <==> !SpellsOneOf(v, TrueWords) && !SpellsOneOf(v, FalseWords)
    ensures r.Err? ==> r.error == ArgumentTypeError(BoolExpected)
  {
    WordsAreLowerCase();
    LoweredInIff(v, TrueWords);
    LoweredInIff(v, FalseWords);
    var lowered := ToLower(v);
    if lowered in TrueWords then Ok(true)
    else if lowered in FalseWords then Ok(false)
    else Err(ArgumentTypeError(BoolExpected))
  }

  /** No string is both a true word and a false word up to letter case, so the
      order of the two tests in the source does not matter. */
  lemma {:induction false} TrueAndFalseWordsDisjoint(v: string)
    ensures !(SpellsOneOf(v, TrueWords) && SpellsOneOf(v, FalseWords))
  {
    WordsAreLowerCase();
    LoweredInIff(v, TrueWords);
    LoweredInIff(v, FalseWords);
  }

  /** The false outcome, stated without reference to the true words. */
  lemma Str2BoolFalseIff(v: string)
    ensures Str2Bool(v) == Ok(false) <==> SpellsOneOf(v, FalseWords)
  {
  }

  /** The validator sees only the lowered input: `str2bool(v) == str2bool(v.lower())`. */
  lemma Str2BoolOfLowered(v: string)
    ensures Str2Bool(v) == Str2Bool(ToLower(v))
  {
  }

  /** Two inputs equal up to letter case get the same outcome. */
  lemma Str2BoolIgnoresCase(u: string, v: string)
    requires EqualIgnoringCase(u, v)
    ensures Str2Bool(u) == Str2Bool(v)
  {
    EqualIgnoringCaseIff(u, v);
  }

  /** Mixed-case spellings of the accepted words are accepted. */
  lemma Str2BoolAcceptsMixedCase()
    ensures Str2Bool("YES") == Ok(true) && Str2Bool("True") == Ok(true)
    ensures Str2Bool("T") == Ok(true)
    ensures Str2Bool("No") == Ok(false) && Str2Bool("FALSE") == Ok(false)
    ensures Str2Bool("F") == Ok(false)
  {
    assert EqualIgnoringCase("YES", TrueWords[0]);
    assert EqualIgnoringCase("True", TrueWords[1]);
    assert EqualIgnoringCase("T", TrueWords[2]);
    assert EqualIgnoringCase("No", FalseWords[0]);
    assert EqualIgnoringCase("FALSE", FalseWords[1]);
    assert EqualIgnoringCase("F", FalseWords[2]);
    Str2BoolFalseIff("No");
    Str2BoolFalseIff("FALSE");
    Str2BoolFalseIff("F");
  }

  /** Near misses are rejected: "y", "on", " true" (no trimming) and "". */
  lemma Str2BoolRejectsNearMisses()
    ensures Str2Bool("y") == Err(ArgumentTypeError(BoolExpected))
    ensures Str2Bool("on").Err? && Str2Bool(" true").Err? && Str2Bool("").Err?
  {
  }
}
