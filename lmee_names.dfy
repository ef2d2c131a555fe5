/**
 * Container names of the dielectron configuration macro: the `;`-separated
 * list of variant names split into tokens, the `%02d` fallback for indices
 * past the list, and the name a cut definition gets.
 */
module LMEENames {
  import opened Wrappers

  // ---------------------------------------------------------------------
  // Splitting a delimited list (the TString tokenizer the macro relies on)
  // ---------------------------------------------------------------------

  /** Joins tokens with a delimiter between neighbours. */
  function Join(tokens: seq<string>, d: char): string
  {
    if tokens == [] then ""
    else if |tokens| == 1 then tokens[0]
    else tokens[0] + [d] + Join(tokens[1..], d)
  }

  /** Splits `s` at every `d`, dropping empty tokens; `current` is the token being read. */
  function SplitFrom(s: string, d: char, current: string): seq<string>
    decreases |s|
  {
    if s == [] then
      (if current == [] then [] else [current])
    else if s[0] == d then
      (if current == [] then [] else [current]) + SplitFrom(s[1..], d, [])
    else
      SplitFrom(s[1..], d, current + [s[0]])
  }

  /** The non-empty tokens of `s` separated by `d`. */
  function Tokenize(s: string, d: char): seq<string>
  {
    SplitFrom(s, d, [])
  }

  /** Tokens that survive a join: non-empty and free of the delimiter. */
  predicate Joinable(tokens: seq<string>, d: char)
  {
    forall i :: 0 <= i < |tokens| ==> tokens[i] != [] && d !in tokens[i]
  }

  lemma {:induction false} SplitFromAbsorbs(t: string, rest: string, d: char, current: string)
    requires d !in t
    ensures SplitFrom(t + rest, d, current) == SplitFrom(rest, d, current + t)
    decreases |t|
  {
    if t != [] {
      assert (t + rest)[0] == t[0];
      assert (t + rest)[1..] == t[1..] + rest;
      assert d !in t[1..] by {
        forall k | 0 <= k < |t[1..]| ensures t[1..][k] != d {
          assert t[1..][k] == t[k + 1];
        }
      }
      SplitFromAbsorbs(t[1..], rest, d, current + [t[0]]);
      assert current + [t[0]] + t[1..] == current + t;
    } else {
      assert t + rest == rest;
      assert current + t == current;
    }
  }

  /** Splitting a joined list gives the list back. */
  lemma {:induction false} TokenizeJoin(tokens: seq<string>, d: char)
    requires Joinable(tokens, d)
    ensures Tokenize(Join(tokens, d), d) == tokens
    decreases |tokens|
  {
    if tokens == [] {
    } else if |tokens| == 1 {
      SplitFromAbsorbs(tokens[0], [], d, []);
      assert tokens[0] + [] == tokens[0];
      assert [] + tokens[0] == tokens[0];
    } else {
      var t, rest := tokens[0], Join(tokens[1..], d);
      assert Joinable(tokens[1..], d) by {
        forall i | 0 <= i < |tokens[1..]| ensures tokens[1..][i] != [] && d !in tokens[1..][i] {
          assert tokens[1..][i] == tokens[i + 1];
        }
      }
      assert t != [] && d !in t by { assert tokens[0] == t; }
      assert Join(tokens, d) == t + ([d] + rest);
      SplitFromAbsorbs(t, [d] + rest, d, []);
      assert [] + t == t;
      assert ([d] + rest)[1..] == rest;
      TokenizeJoin(tokens[1..], d);
      assert [t] + tokens[1..] == tokens;
    }
  }

  // ---------------------------------------------------------------------
  // The `%02d` format
  // ---------------------------------------------------------------------

  function DigitChar(k: nat): (c: char)
    requires k < 10
    ensures '0' <= c <= '9'
  {
    "0123456789"[k]
  }

  /** The decimal digits of `n`, most significant first, with no leading zero. */
  function Digits(n: nat): (s: string)
    ensures |s| >= 1
    ensures forall i :: 0 <= i < |s| ==> '0' <= s[i] <= '9'
    ensures n > 0 ==> s[0] != '0'
    decreases n
  {
    if n < 10 then [DigitChar(n)] else Digits(n / 10) + [DigitChar(n % 10)]
  }

  /** Reads a string of decimal digits back as a number. */
  function DigitsValue(s: string): nat
    decreases |s|
  {
    if s == [] then 0
    else
      var last := s[|s| - 1];
      DigitsValue(s[..|s| - 1]) * 10 + (if '0' <= last <= '9' then (last - '0') as int else 0)
  }

  lemma DigitCharValue(k: nat)
    requires k < 10
    ensures (DigitChar(k) - '0') as int == k
  {
  }

  /** Reading the digits of `n` gives `n` back. */
  lemma {:induction false} DigitsRoundTrip(n: nat)
    ensures DigitsValue(Digits(n)) == n
    decreases n
  {
    var s := Digits(n);
    if n < 10 {
      DigitCharValue(n);
      assert s[..|s| - 1] == [];
    } else {
      DigitsRoundTrip(n / 10);
      DigitCharValue(n % 10);
      assert s[..|s| - 1] == Digits(n / 10);
    }
  }

  lemma DigitsInjective(a: nat, b: nat)
    requires Digits(a) == Digits(b)
    ensures a == b
  {
    DigitsRoundTrip(a);
    DigitsRoundTrip(b);
  }

  /** `Form("%02d", n)`: at least two characters, zero padded; a negative number keeps its sign. */
  function FormatIndex(n: int): (s: string)
    ensures |s| >= 2
    ensures s[0] == '-' <==> n < 0
    ensures n >= 0 ==> forall i :: 0 <= i < |s| ==> '0' <= s[i] <= '9'
  {
    if 0 <= n < 10 then "0" + Digits(n)
    else if n >= 0 then Digits(n)
    else "-" + Digits(-n)
  }

  /** The `%02d` text reads back as its number, and a pad zero appears only on a single digit. */
  lemma FormatIndexReadsBack(n: int)
    ensures n >= 0 ==> DigitsValue(FormatIndex(n)) == n
    ensures n < 0 ==> DigitsValue(FormatIndex(n)[1..]) == -n
    ensures n < 0 ==> FormatIndex(n)[1..] == Digits(-n)
    ensures FormatIndex(n)[0] == '0' ==> |FormatIndex(n)| == 2
  {
    var s := FormatIndex(n);
    if 0 <= n < 10 {
      assert s == "0" + [DigitChar(n)];
      assert s[..1] == "0";
      assert DigitsValue("0") == 0;
      DigitCharValue(n);
    } else if n >= 10 {
      assert s == Digits(n);
      DigitsRoundTrip(n);
    } else {
      assert s == "-" + Digits(-n);
      assert s[1..] == Digits(-n);
      DigitsRoundTrip(-n);
    }
  }

  /** Distinct numbers are formatted differently. */
  lemma FormatIndexInjective(a: int, b: int)
    requires FormatIndex(a) == FormatIndex(b)
    ensures a == b
  {
    var s := FormatIndex(a);
    if a < 0 {
      assert b < 0;
      assert s[1..] == Digits(-a) == Digits(-b);
      DigitsInjective(-a, -b);
    } else if a < 10 {
      assert b >= 0 && s[0] == '0';
      assert s[1..] == Digits(a) == Digits(b);
      DigitsInjective(a, b);
    } else {
      assert s == Digits(a) && s[0] != '0';
      assert b >= 10;
      DigitsInjective(a, b);
    }
  }

  // ---------------------------------------------------------------------
  // The list of variant names and the name of a cut definition
  // ---------------------------------------------------------------------

  /** The variant names, one per cut definition 0..14. */
  const NameTokens: seq<string> := [
    "noPairing",
    "TPCTOFCentnoRej", "TPCTOFSemiCentnoRej", "TPCTOFPerinoRej",
    "TPCTOFCent", "TPCTOFSemiCent", "TPCTOFPeri",
    "TPCTOFCentnoRejTight", "TPCTOFCentTight",
    "TPCTOFCentPhiV", "TPCTOFSemiCentPhiV", "TPCTOFPeriPhiV",
    "TPCTOFCentOA", "TPCTOFSemiCentOA", "TPCTOFPeriOA"]

  /** The macro's `names` string: the variant names separated by `;`. */
  const NamesList: string := Join(NameTokens, ';')

  /** `arrNames`: the tokens of the names string. */
  function ArrNames(): seq<string>
  {
    Tokenize(NamesList, ';')
  }

  /** No variant name is empty or contains the `;` delimiter. */
  lemma NameTokensJoinable()
    ensures Joinable(NameTokens, ';')
  {
  }

  /** The names string splits into exactly the fifteen variant names, so `nDie` is 15. */
  lemma ArrNamesAreNameTokens()
    ensures ArrNames() == NameTokens
    ensures |ArrNames()| == 15
  {
    NameTokensJoinable();
    TokenizeJoin(NameTokens, ';');
  }

  /** `s` is non-empty and starts with an ASCII letter. */
  predicate StartsWithLetter(s: string)
  {
    |s| > 0 && ('a' <= s[0] <= 'z' || 'A' <= s[0] <= 'Z')
  }

  /**
   * The container name of a cut definition: its variant name when it has
   * one, otherwise the index formatted with `%02d`. The list is `arrNames`,
   * written as `NameTokens` (ArrNamesAreNameTokens).
   */
  function DieName(cut: int): (name: string)
    ensures 0 <= cut < 15 ==> StartsWithLetter(name)
    ensures !(0 <= cut < 15) ==> !StartsWithLetter(name) && |name| >= 2
    ensures !(0 <= cut < 15) ==> name == FormatIndex(cut)
  {
    if 0 <= cut < |NameTokens| then NameTokens[cut] else FormatIndex(cut)
  }

  /** The name is the `cut`-th token of `arrNames` when `0 <= cut < nDie`, else `%02d` of `cut`. */
  lemma DieNameLooksUpArrNames(cut: int)
    ensures 0 <= cut < |ArrNames()| ==> DieName(cut) == ArrNames()[cut]
    ensures !(0 <= cut < |ArrNames()|) ==> DieName(cut) == FormatIndex(cut)
  {
    ArrNamesAreNameTokens();
  }

  /**
   * The name as the macro computes it: the guard is only `cut < 15`, so a
   * negative index reaches `arrNames->At(cut)`, which answers a null
   * object for an index out of range; `None` stands for that dereference.
   */
  function DieNameAsWritten(cut: int): (name: Option<string>)
    ensures name.None? <==> cut < 0
  {
    if cut < |NameTokens| then
      (if 0 <= cut then Some(NameTokens[cut]) else None)
    else Some(FormatIndex(cut))
  }

  /** The guard lets -1 through to the out-of-range lookup; elsewhere the two agree. */
  lemma NegativeIndexReachesNullName(cut: int)
    ensures DieNameAsWritten(-1).None?
    ensures cut >= 0 ==> DieNameAsWritten(cut) == Some(DieName(cut))
  {
  }

  /** Different cut definitions give containers different names. */
  lemma DieNameInjective(a: int, b: int)
    requires a != b
    ensures DieName(a) != DieName(b)
  {
    if 0 <= a < 15 && 0 <= b < 15 {
      assert forall i, j :: 0 <= i < j < |NameTokens| ==> NameTokens[i] != NameTokens[j];
    } else if 0 <= a < 15 || 0 <= b < 15 {
    } else if DieName(a) == DieName(b) {
      FormatIndexInjective(a, b);
    }
  }
}
