/**
 * An amount in English words, with the Indian grouping of digits: crore (10^7),
 * lakh (10^5), thousand and hundred, peeled off in that order, then the last two
 * digits, preceded by "and" when a group came before them.
 *
 * The specification is a list of tokens, `Tokens(n)`, joined by single spaces;
 * the imperative converter builds the same text by appending to a string and
 * trimming it at the end.
 *
 * The divisors are written out in the Indian grouping of digits: a crore is
 * 1_00_00_000 and a lakh 1_00_000.
 */
module NumberWords {
  import opened Decimal
  import opened Text

  const UnitsMap: seq<string> := [
    "Zero", "One", "Two", "Three", "Four", "Five", "Six", "Seven", "Eight", "Nine", "Ten",
    "Eleven", "Twelve", "Thirteen", "Fourteen", "Fifteen", "Sixteen", "Seventeen", "Eighteen", "Nineteen"]
  const TensMap: seq<string> := [
    "Zero", "Ten", "Twenty", "Thirty", "Forty", "Fifty", "Sixty", "Seventy", "Eighty", "Ninety"]

  // ---------------------------------------------------------------------------
  // Specification
  // ---------------------------------------------------------------------------

  /** The tokens separated by single spaces. */
  function Join(ts: seq<string>): string {
    if ts == [] then ""
    else if |ts| == 1 then ts[0]
    else ts[0] + " " + Join(ts[1..])
  }

  /** Every token followed by one space. */
  function Spaced(ts: seq<string>): string {
    if ts == [] then "" else ts[0] + " " + Spaced(ts[1..])
  }

  /** The words of the last two digits, 1 to 99. */
  function SmallTokens(r: int): seq<string>
    requires 0 < r < 100
  {
    if r < 20 then [UnitsMap[r]]
    else [TensMap[r / 10]] + (if r % 10 > 0 then [UnitsMap[r % 10]] else [])
  }

  /** `<words of q> <unit>` for a group that is present, nothing for q == 0. */
  function Group(q: nat, unit: string): seq<string>
    decreases q, 1
  {
    if q > 0 then Tokens(q) + [unit] else []
  }

  /** The last two digits, after "and" when some group came before them. */
  function Tail(r: int, afterGroup: bool): seq<string>
    requires 0 <= r < 100
  {
    if r > 0 then (if afterGroup then ["and"] else []) + SmallTokens(r) else []
  }

  /** The words of a positive number; no words for 0. */
  function Tokens(n: nat): seq<string>
    decreases n, 0
  {
    if n == 0 then []
    else
      var n1 := n % 1_00_00_000;
      var n2 := n1 % 1_00_000;
      var n3 := n2 % 1000;
      var lead := Group(n / 1_00_00_000, "Crore") + Group(n1 / 1_00_000, "Lakh") +
        Group(n2 / 1000, "Thousand") + Group(n3 / 100, "Hundred");
      lead + Tail(n3 % 100, lead != [])
  }

  /** The words of any integer: "Zero", or "Minus" before the words of its magnitude. */
  function SpelledTokens(n: int): seq<string> {
    if n == 0 then ["Zero"]
    else if n < 0 then ["Minus"] + Tokens(-n)
    else Tokens(n)
  }

  /**
   * The text of any integer: "Zero", "Minus " before the text of its magnitude, or
   * the words of a positive number joined by single spaces.
   */
  function Spelled(n: int): string
    decreases if n < 0 then 1 else 0
  {
    if n == 0 then "Zero"
    else if n < 0 then "Minus " + Spelled(-n)
    else Join(Tokens(n))
  }

  /** A word of a positive amount: not empty, not "Zero", no whitespace in it. */
  predicate IsWord(t: string) {
    t != [] && t != "Zero" && forall k :: 0 <= k < |t| ==> !IsWhiteSpace(t[k])
  }

  predicate AllWords(ts: seq<string>) {
    forall i :: 0 <= i < |ts| ==> IsWord(ts[i])
  }

  // ---------------------------------------------------------------------------
  // The converter, as the source runs it
  // ---------------------------------------------------------------------------

  method NumberToWords(number: int) returns (words: string)
    requires MinLong < number <= MaxLong
    ensures words == Spelled(number)
    decreases if number < 0 then -number else number, if number < 0 then 5 else 3
  {
    if number == 0 {
      words := "Zero";
      assert words == Spelled(number);
    } else if number < 0 {
      words := SpellNegative(number);
    } else {
      words := SpellPositive(number);
    }
  }

  /** The negative branch: "Minus " before the words of the magnitude. */
  method SpellNegative(number: int) returns (words: string)
    requires MinLong < number < 0
    ensures words == Spelled(number)
    decreases -number, 4
  {
    var magnitude := NumberToWords(-number);
    words := "Minus " + magnitude;
    SpelledNegative(number, magnitude);
  }

  lemma SpelledNegative(n: int, magnitude: string)
    requires n < 0 && magnitude == Spelled(-n)
    ensures "Minus " + magnitude == Spelled(n)
  {
  }


  /**
   * The body of the converter for a positive number: the four groups, the last two
   * digits, then the trim.
   */
  method SpellPositive(number: int) returns (words: string)
    requires 0 < number <= MaxLong
    ensures words == Spelled(number)
    decreases number, 2
  {
    var n := number;
    words := "";
    ghost var lead: seq<string> := [];
    words := AppendGroupWords(words, n / 1_00_00_000, "Crore", lead);
    lead := Group(n / 1_00_00_000, "Crore");
    assert [] + lead == lead;
    n := n % 1_00_00_000;
    words := AppendGroupWords(words, n / 1_00_000, "Lakh", lead);
    lead := lead + Group(n / 1_00_000, "Lakh");
    n := n % 1_00_000;
    words := AppendGroupWords(words, n / 1000, "Thousand", lead);
    lead := lead + Group(n / 1000, "Thousand");
    n := n % 1000;
    words := AppendGroupWords(words, n / 100, "Hundred", lead);
    lead := lead + Group(n / 100, "Hundred");
    n := n % 100;

    words := AppendLastTwoDigits(words, n, lead);
    TrimmedWords(number, lead, n, words);
    words := Trim(words);
  }

  /**
   * The last step of the converter: the words of the last two digits, after
   * "and" when some group was written before them.
   */
  method AppendLastTwoDigits(words: string, n: int, ghost lead: seq<string>) returns (extended: string)
    requires 0 <= n < 100 && words == Spaced(lead)
    ensures n > 0 ==> extended == Join(lead + Tail(n, lead != []))
    ensures n == 0 ==> extended == words
  {
    extended := words;
    if n > 0 {
      if extended != "" {
        extended := extended + "and ";
      }
      assert extended == Spaced(lead + (if lead != [] then ["and"] else [])) by {
        SpacedAppend(lead, if lead != [] then ["and"] else []);
      }
      extended := AppendSmallNumber(extended, n);
      TailJoin(lead, n);
    }
  }

  /** The words of 1 to 99 appended: a unit or teen name, or a tens name and a unit name. */
  method AppendSmallNumber(words: string, n: int) returns (extended: string)
    requires 0 < n < 100
    ensures extended == words + Join(SmallTokens(n))
  {
    SmallText(n);
    if n < 20 {
      extended := words + UnitsMap[n];
    } else if n % 10 > 0 {
      extended := words + TensMap[n / 10];
      extended := extended + " " + UnitsMap[n % 10];
      assert extended == words + (TensMap[n / 10] + " " + UnitsMap[n % 10]);
    } else {
      extended := words + TensMap[n / 10];
    }
  }

  /**
   * One of the four group steps of the converter: when the number holds `q` > 0 of
   * the group's unit, the words of `q` and the unit name are appended.
   */
  method AppendGroupWords(words: string, q: int, unit: string, ghost lead: seq<string>)
    returns (extended: string)
    requires 0 <= q <= MaxLong
    requires words == Spaced(lead)
    ensures extended == Spaced(lead + Group(q, unit))
    decreases q, 4
  {
    extended := words;
    if q > 0 {
      var w := NumberToWords(q);
      AppendGroup(words, lead, w, q, unit);
      extended := words + w + " " + unit + " ";
    } else {
      assert lead + Group(q, unit) == lead;
    }
  }

  /** What the converter has written before its final trim is, once trimmed, the spelling of `number`. */
  lemma TrimmedWords(number: nat, lead: seq<string>, n: int, words: string)
    requires number > 0
    requires var n1 := number % 1_00_00_000; var n2 := n1 % 1_00_000; var n3 := n2 % 1000;
      n == n3 % 100 &&
      lead == Group(number / 1_00_00_000, "Crore") + Group(n1 / 1_00_000, "Lakh") +
        Group(n2 / 1000, "Thousand") + Group(n3 / 100, "Hundred")
    requires n > 0 ==> words == Join(lead + Tail(n, lead != []))
    requires n == 0 ==> words == Spaced(lead)
    ensures Trim(words) == Spelled(number)
  {
    var all := Tokens(number);
    assert all == lead + Tail(n, lead != []);
    assert all != [] && AllWords(all) by {
      TokensAreWords(number);
    }
    if n > 0 {
      TrimJoin(all);
    } else {
      assert lead == all;
      SpacedIsJoinPlusSpace(lead);
      TrimJoinSpace(lead);
    }
  }

  /** The text of the last two digits, as the converter writes it. */
  lemma SmallText(r: int)
    requires 0 < r < 100
    ensures Join(SmallTokens(r)) ==
      if r < 20 then UnitsMap[r]
      else TensMap[r / 10] + (if r % 10 > 0 then " " + UnitsMap[r % 10] else "")
  {
    if r >= 20 && r % 10 > 0 {
      assert SmallTokens(r)[1..] == [UnitsMap[r % 10]];
    }
  }

  /** The words before the last two digits, then those digits' words. */
  lemma TailJoin(lead: seq<string>, r: int)
    requires 0 < r < 100
    ensures Spaced(lead + (if lead != [] then ["and"] else [])) + Join(SmallTokens(r))
      == Join(lead + Tail(r, lead != []))
  {
    var prefix := lead + (if lead != [] then ["and"] else []);
    JoinAfterSpaced(prefix, SmallTokens(r));
    assert prefix + SmallTokens(r) == lead + Tail(r, lead != []);
  }

  // ---------------------------------------------------------------------------
  // Joining tokens
  // ---------------------------------------------------------------------------

  lemma {:induction false} SpacedAppend(a: seq<string>, b: seq<string>)
    ensures Spaced(a + b) == Spaced(a) + Spaced(b)
  {
    if a == [] {
      assert a + b == b;
    } else {
      assert (a + b)[0] == a[0] && (a + b)[1..] == a[1..] + b;
      SpacedAppend(a[1..], b);
    }
  }

  lemma {:induction false} JoinAfterSpaced(a: seq<string>, b: seq<string>)
    requires b != []
    ensures Spaced(a) + Join(b) == Join(a + b)
  {
    if a == [] {
      assert a + b == b;
    } else {
      assert (a + b)[0] == a[0] && (a + b)[1..] == a[1..] + b && |a + b| > 1;
      JoinAfterSpaced(a[1..], b);
    }
  }

  lemma SpacedIsJoinPlusSpace(ts: seq<string>)
    requires ts != []
    ensures Spaced(ts) == Join(ts) + " "
  {
    var init, last := ts[..|ts| - 1], ts[|ts| - 1];
    assert ts == init + [last];
    SpacedAppend(init, [last]);
    JoinAfterSpaced(init, [last]);
  }

  /** Appending one group, `<words of q> <unit> `, to the text built so far. */
  lemma AppendGroup(words: string, lead: seq<string>, w: string, q: nat, unit: string)
    requires words == Spaced(lead) && w == Spelled(q) && q > 0
    ensures words + w + " " + unit + " " == Spaced(lead + Group(q, unit))
  {
    TokensAreWords(q);
    AppendSpaced(words, lead, w, Tokens(q), unit);
  }

  lemma AppendSpaced(words: string, lead: seq<string>, w: string, t: seq<string>, unit: string)
    requires words == Spaced(lead) && w == Join(t) && t != []
    ensures words + w + " " + unit + " " == Spaced(lead + (t + [unit]))
  {
    calc {
      Spaced(lead + (t + [unit]));
      { assert lead + (t + [unit]) == lead + t + [unit]; }
      Spaced(lead + t + [unit]);
      { SpacedAppend(lead + t, [unit]); }
      Spaced(lead + t) + Spaced([unit]);
      { SpacedAppend(lead, t); assert [unit][1..] == []; }
      Spaced(lead) + Spaced(t) + (unit + " ");
      { SpacedIsJoinPlusSpace(t); }
      words + (w + " ") + (unit + " ");
      { assert words + (w + " ") + (unit + " ") == words + w + " " + unit + " "; }
      words + w + " " + unit + " ";
    }
  }

  lemma {:induction false} JoinEnds(ts: seq<string>)
    requires ts != [] && forall i :: 0 <= i < |ts| ==> ts[i] != []
    ensures Join(ts) != []
    ensures Join(ts)[0] == ts[0][0]
    ensures Join(ts)[|Join(ts)| - 1] == ts[|ts| - 1][|ts[|ts| - 1]| - 1]
  {
    if |ts| > 1 {
      var rest := ts[1..];
      assert forall i :: 0 <= i < |rest| ==> rest[i] == ts[i + 1];
      JoinEnds(rest);
      assert Join(ts) == ts[0] + " " + Join(rest);
    }
  }

  /** Trimming a text made of words changes nothing. */
  lemma TrimJoin(ts: seq<string>)
    requires ts != [] && AllWords(ts)
    ensures Join(ts) != [] && Trim(Join(ts)) == Join(ts)
  {
    JoinEnds(ts);
    assert IsWord(ts[0]) && IsWord(ts[|ts| - 1]);
  }

  /** Trimming removes the space after the last word. */
  lemma TrimJoinSpace(ts: seq<string>)
    requires ts != [] && AllWords(ts)
    ensures Trim(Join(ts) + " ") == Join(ts)
  {
    var s := Join(ts);
    JoinEnds(ts);
    assert IsWord(ts[0]) && IsWord(ts[|ts| - 1]);
    assert (s + " ")[0] == s[0];
    assert TrimStart(s + " ") == s + " ";
    assert (s + " ")[..|s + " "| - 1] == s;
  }

  // ---------------------------------------------------------------------------
  // What the words are
  // ---------------------------------------------------------------------------

  lemma UnitNamesAreWords()
    ensures IsWord("Crore") && IsWord("Lakh") && IsWord("Thousand") && IsWord("Hundred")
    ensures IsWord("and") && IsWord("Minus")
  {
  }

  lemma UnitWord(i: int)
    requires 1 <= i < 20
    ensures IsWord(UnitsMap[i]) && UnitsMap[i] != "and"
  {
    if i < 10 {
      DigitWord(i);
    } else {
      TeenWord(i);
    }
  }

  lemma DigitWord(i: int)
    requires 1 <= i < 10
    ensures IsWord(UnitsMap[i]) && UnitsMap[i] != "and"
  {
    assert i == 1 || i == 2 || i == 3 || i == 4 || i == 5 || i == 6 || i == 7 || i == 8 || i == 9;
  }

  lemma TeenWord(i: int)
    requires 10 <= i < 20
    ensures IsWord(UnitsMap[i]) && UnitsMap[i] != "and"
  {
    assert i == 10 || i == 11 || i == 12 || i == 13 || i == 14 || i == 15 || i == 16 || i == 17 ||
      i == 18 || i == 19;
  }

  lemma TensWord(i: int)
    requires 2 <= i < 10
    ensures IsWord(TensMap[i]) && TensMap[i] != "and"
  {
    assert i == 2 || i == 3 || i == 4 || i == 5 || i == 6 || i == 7 || i == 8 || i == 9;
  }

  lemma SmallTokensAreWords(r: int)
    requires 0 < r < 100
    ensures SmallTokens(r) != [] && AllWords(SmallTokens(r)) && "and" !in SmallTokens(r)
  {
    if r < 20 {
      UnitWord(r);
    } else {
      TensWord(r / 10);
      if r % 10 > 0 {
        UnitWord(r % 10);
      }
    }
  }

  lemma AllWordsAppend(a: seq<string>, b: seq<string>)
    requires AllWords(a) && AllWords(b)
    ensures AllWords(a + b)
  {
  }

  /** The groups and the last two digits put back together give the number. */
  lemma Digits(n: nat)
    ensures var n1 := n % 1_00_00_000; var n2 := n1 % 1_00_000; var n3 := n2 % 1000;
      n == (n / 1_00_00_000) * 1_00_00_000 + (n1 / 1_00_000) * 1_00_000 + (n2 / 1000) * 1000 +
        (n3 / 100) * 100 + n3 % 100
  {
  }

  /** A positive number has words, and every one of them is a proper word (never "Zero"). */
  lemma {:induction false} TokensAreWords(n: nat)
    ensures n > 0 <==> Tokens(n) != []
    ensures AllWords(Tokens(n))
    decreases n, 0
  {
    if n > 0 {
      var n1 := n % 1_00_00_000;
      var n2 := n1 % 1_00_000;
      var n3 := n2 % 1000;
      var g1, g2, g3, g4 := Group(n / 1_00_00_000, "Crore"), Group(n1 / 1_00_000, "Lakh"),
        Group(n2 / 1000, "Thousand"), Group(n3 / 100, "Hundred");
      var lead := g1 + g2 + g3 + g4;
      var tail := Tail(n3 % 100, lead != []);
      assert Tokens(n) == lead + tail;
      assert AllWords(lead) && (lead == [] ==> n3 % 100 == n) by {
        UnitNamesAreWords();
        GroupAreWords(n / 1_00_00_000, "Crore");
        GroupAreWords(n1 / 1_00_000, "Lakh");
        GroupAreWords(n2 / 1000, "Thousand");
        GroupAreWords(n3 / 100, "Hundred");
        AllWordsAppend(g1, g2);
        AllWordsAppend(g1 + g2, g3);
        AllWordsAppend(g1 + g2 + g3, g4);
        Digits(n);
      }
      assert AllWords(tail) && (n3 % 100 > 0 ==> tail != []) by {
        if n3 % 100 > 0 {
          UnitNamesAreWords();
          SmallTokensAreWords(n3 % 100);
          AllWordsAppend(if lead != [] then ["and"] else [], SmallTokens(n3 % 100));
        }
      }
      AllWordsAppend(lead, tail);
    }
  }

  lemma {:induction false} GroupAreWords(q: nat, unit: string)
    requires IsWord(unit)
    ensures q > 0 <==> Group(q, unit) != []
    ensures AllWords(Group(q, unit))
    decreases q, 1
  {
    if q > 0 {
      TokensAreWords(q);
      AllWordsAppend(Tokens(q), [unit]);
    }
  }

  /** The text is the tokens joined by single spaces: "Minus" is a token of its own. */
  lemma SpelledIsJoinedTokens(n: int)
    ensures Spelled(n) == Join(SpelledTokens(n))
  {
    if n == 0 {
      assert Join(["Zero"]) == "Zero";
    } else if n < 0 {
      MinusJoined(n);
    } else {
      assert SpelledTokens(n) == Tokens(n);
    }
  }

  lemma MinusJoined(n: int)
    requires n < 0
    ensures Spelled(n) == Join(SpelledTokens(n))
  {
    TokensNotEmpty(-n);
    PrefixJoined(Spelled(n), Spelled(-n), SpelledTokens(n), Tokens(-n));
  }

  lemma PrefixJoined(spelled: string, magnitude: string, tokens: seq<string>, t: seq<string>)
    requires t != [] && magnitude == Join(t)
    requires spelled == "Minus " + magnitude && tokens == ["Minus"] + t
    ensures spelled == Join(tokens)
  {
    JoinAfterWord("Minus", t);
  }

  lemma TokensNotEmpty(n: nat)
    requires n > 0
    ensures Tokens(n) != []
  {
    TokensAreWords(n);
  }

  lemma JoinAfterWord(w: string, t: seq<string>)
    requires t != []
    ensures Join([w] + t) == w + " " + Join(t)
  {
    assert ([w] + t)[0] == w && ([w] + t)[1..] == t;
  }

  // ---------------------------------------------------------------------------
  // Properties of the spelling
  // ---------------------------------------------------------------------------

  /** "Zero" is the spelling of 0 and appears in no other. */
  lemma ZeroOnlyForZero(n: int)
    ensures "Zero" in SpelledTokens(n) <==> n == 0
  {
    if n == 0 {
      assert SpelledTokens(n)[0] == "Zero";
    } else {
      SpelledTokensAreWords(n);
      NoZeroWord(SpelledTokens(n));
    }
  }

  /** The words of a number other than 0 are ordinary words: none is blank or "Zero". */
  lemma SpelledTokensAreWords(n: int)
    requires n != 0
    ensures SpelledTokens(n) != [] && AllWords(SpelledTokens(n))
  {
    var m := if n < 0 then -n else n;
    TokensAreWords(m);
    if n < 0 {
      UnitNamesAreWords();
      AllWordsAppend(["Minus"], Tokens(m));
    }
  }

  /** The whole spelling is "Zero" only for 0. */
  lemma SpelledZeroOnlyForZero(n: int)
    ensures Spelled(n) == "Zero" <==> n == 0
  {
    if n != 0 {
      SpelledTokensAreWords(n);
      SpelledIsJoinedTokens(n);
      JoinIsNotZero(SpelledTokens(n));
    }
  }

  lemma JoinIsNotZero(ts: seq<string>)
    requires ts != [] && AllWords(ts)
    ensures Join(ts) != "Zero"
  {
    assert IsWord(ts[0]);
    if |ts| > 1 {
      var j := Join(ts);
      assert j == ts[0] + " " + Join(ts[1..]);
      assert j[|ts[0]|] == ' ';
      assert forall k :: 0 <= k < |"Zero"| ==> "Zero"[k] != ' ';
    }
  }

  lemma NoZeroWord(ts: seq<string>)
    requires AllWords(ts)
    ensures "Zero" !in ts
  {
    forall i | 0 <= i < |ts|
      ensures ts[i] != "Zero"
    {
      assert IsWord(ts[i]);
    }
  }

  /** The spelling has no whitespace at either end, so the converter's final trim keeps every word. */
  lemma SpelledIsTrimmed(n: int)
    ensures Spelled(n) != []
    ensures Trim(Spelled(n)) == Spelled(n)
  {
    if n == 0 {
      assert Spelled(0) == "Zero" && |"Zero"| == 4;
      assert !IsWhiteSpace('Z') && !IsWhiteSpace('o');
    } else {
      var ts := SpelledTokens(n);
      SpelledIsJoinedTokens(n);
      var m := if n < 0 then -n else n;
      assert Tokens(m) != [] && AllWords(Tokens(m)) by {
        TokensAreWords(m);
      }
      if n < 0 {
        UnitNamesAreWords();
        AllWordsAppend(["Minus"], Tokens(m));
      }
      TrimJoin(ts);
    }
  }

  /** Below a hundred there are no groups: only the words of the last two digits. */
  lemma BelowHundred(q: nat)
    requires 0 < q < 100
    ensures Tokens(q) == SmallTokens(q)
  {
    assert Group(q / 1_00_00_000, "Crore") == [] && Group(q % 1_00_00_000 / 1_00_000, "Lakh") == [];
    assert Group(q % 1_00_00_000 % 1_00_000 / 1000, "Thousand") == [];
    assert Group(q % 1_00_00_000 % 1_00_000 % 1000 / 100, "Hundred") == [];
    assert q % 1_00_00_000 % 1_00_000 % 1000 % 100 == q;
  }

  lemma GroupHasNoAnd(q: nat, unit: string)
    requires q < 100 && unit != "and"
    ensures "and" !in Group(q, unit)
  {
    if q > 0 {
      BelowHundred(q);
      SmallTokensAreWords(q);
    }
  }

  lemma LastTwoDigits(n: nat)
    ensures n % 1_00_00_000 % 1_00_000 % 1000 % 100 == n % 100
  {
    var n1 := n % 1_00_00_000;
    SameLastTwoDigits(n, n1, n / 1_00_00_000 * 1_00_000);
    var n2 := n1 % 1_00_000;
    SameLastTwoDigits(n1, n2, n1 / 1_00_000 * 1000);
    var n3 := n2 % 1000;
    SameLastTwoDigits(n2, n3, n2 / 1000 * 10);
  }

  /** Numbers a whole number of hundreds apart end in the same two digits. */
  lemma SameLastTwoDigits(a: int, b: int, k: int)
    requires a - b == k * 100
    ensures a % 100 == b % 100
  {
  }

  /**
   * Below a hundred crore, "and" is written exactly when something precedes the
   * last two digits and those digits are not both zero.
   */
  lemma AndRule(n: nat)
    requires 0 < n < 100 * 1_00_00_000
    ensures "and" in Tokens(n) <==> n >= 100 && n % 100 != 0
  {
    var n1 := n % 1_00_00_000;
    var n2 := n1 % 1_00_000;
    var n3 := n2 % 1000;
    var g1, g2, g3, g4 := Group(n / 1_00_00_000, "Crore"), Group(n1 / 1_00_000, "Lakh"),
      Group(n2 / 1000, "Thousand"), Group(n3 / 100, "Hundred");
    var lead := g1 + g2 + g3 + g4;
    var tail := Tail(n3 % 100, lead != []);
    assert Tokens(n) == lead + tail;
    assert "and" !in lead by {
      GroupHasNoAnd(n / 1_00_00_000, "Crore");
      GroupHasNoAnd(n1 / 1_00_000, "Lakh");
      GroupHasNoAnd(n2 / 1000, "Thousand");
      GroupHasNoAnd(n3 / 100, "Hundred");
    }
    assert lead != [] <==> n >= 100 by {
      UnitNamesAreWords();
      GroupAreWords(n / 1_00_00_000, "Crore");
      GroupAreWords(n1 / 1_00_000, "Lakh");
      GroupAreWords(n2 / 1000, "Thousand");
      GroupAreWords(n3 / 100, "Hundred");
      Digits(n);
    }
    LastTwoDigits(n);
    if n3 % 100 > 0 {
      SmallTokensAreWords(n3 % 100);
    }
  }

  /** -5 is spelled "Minus Five". */
  lemma ExampleNegative()
    ensures Spelled(-5) == "Minus Five"
  {
    BelowHundred(5);
    assert Spelled(5) == "Five";
  }

  /** 1,00,000 is spelled "One Lakh": one lakh group, nothing after it, no "and". */
  lemma ExampleOneLakh()
    ensures Spelled(1_00_000) == "One Lakh"
  {
    SpelledOneLakh(1_00_000);
  }

  lemma SpelledOneLakh(n: int)
    requires n == 1_00_000
    ensures Spelled(n) == "One Lakh"
  {
    OneLakhTokens(n);
    JoinedPair(Spelled(n), Tokens(n), "One", "Lakh");
  }

  lemma JoinedPair(spelled: string, tokens: seq<string>, a: string, b: string)
    requires spelled == Join(tokens) && tokens == [a, b]
    ensures spelled == a + " " + b
  {
    JoinTwo(a, b);
  }

  lemma OneLakhTokens(n: int)
    requires n == 1_00_000
    ensures Tokens(n) == ["One", "Lakh"]
  {
    TokensByGroups(n, 0, 1, 0, 0, 0);
    GroupBelowHundred(1, "Lakh");
  }

  /** Tokens(n) from the group quotients of n, named. */
  lemma TokensByGroups(n: nat, crore: nat, lakh: nat, thousand: nat, hundred: nat, rest: nat)
    requires n > 0
    requires crore == n / 1_00_00_000 && lakh == n % 1_00_00_000 / 1_00_000
    requires thousand == n % 1_00_00_000 % 1_00_000 / 1000
    requires hundred == n % 1_00_00_000 % 1_00_000 % 1000 / 100
    requires rest == n % 1_00_00_000 % 1_00_000 % 1000 % 100
    ensures Tokens(n) == Group(crore, "Crore") + Group(lakh, "Lakh") + Group(thousand, "Thousand") +
      Group(hundred, "Hundred") +
      Tail(rest, Group(crore, "Crore") + Group(lakh, "Lakh") + Group(thousand, "Thousand") +
        Group(hundred, "Hundred") != [])
  {
  }

  /** A group whose quotient is below a hundred: the words of the quotient, then the unit. */
  lemma GroupBelowHundred(q: int, unit: string)
    requires 0 < q < 100
    ensures Group(q, unit) == SmallTokens(q) + [unit]
  {
    BelowHundred(q);
  }

  /** Two tokens joined: one space between them. */
  lemma JoinTwo(a: string, b: string)
    ensures Join([a, b]) == a + " " + b
  {
    assert [a, b][1..] == [b];
  }

  /**
   * 12,34,567 is spelled group by group: lakh, thousand, hundred, then "and" and the
   * last two digits (its text is these words joined by single spaces, SpelledIsJoinedTokens).
   */
  lemma ExampleGroupsInOrder()
    ensures SpelledTokens(12_34_567) ==
      ["Twelve", "Lakh", "Thirty", "Four", "Thousand", "Five", "Hundred", "and", "Sixty", "Seven"]
  {
    SpelledGroupsInOrder(12_34_567);
  }

  lemma SpelledGroupsInOrder(n: int)
    requires n == 12_34_567
    ensures SpelledTokens(n) ==
      ["Twelve", "Lakh", "Thirty", "Four", "Thousand", "Five", "Hundred", "and", "Sixty", "Seven"]
  {
    var lakh, thousand, hundred, tail := GroupsInOrderTokens(n);
    Flattened(SpelledTokens(n), lakh, thousand, hundred, tail);
  }

  lemma Flattened(tokens: seq<string>, lakh: seq<string>, thousand: seq<string>, hundred: seq<string>,
                  tail: seq<string>)
    requires tokens == lakh + thousand + hundred + tail
    requires lakh == ["Twelve", "Lakh"] && thousand == ["Thirty", "Four", "Thousand"]
    requires hundred == ["Five", "Hundred"] && tail == ["and", "Sixty", "Seven"]
    ensures tokens == ["Twelve", "Lakh", "Thirty", "Four", "Thousand", "Five", "Hundred", "and", "Sixty", "Seven"]
  {
  }

  /** The tokens of 12,34,567, group by group. */
  lemma GroupsInOrderTokens(n: int) returns (lakh: seq<string>, thousand: seq<string>, hundred: seq<string>,
      tail: seq<string>)
    requires n == 12_34_567
    ensures lakh == ["Twelve", "Lakh"] && thousand == ["Thirty", "Four", "Thousand"]
    ensures hundred == ["Five", "Hundred"] && tail == ["and", "Sixty", "Seven"]
    ensures Tokens(n) == lakh + thousand + hundred + tail
  {
    var c, l, th, h, r := n / 1_00_00_000, n % 1_00_00_000 / 1_00_000, n % 1_00_00_000 % 1_00_000 / 1000,
      n % 1_00_00_000 % 1_00_000 % 1000 / 100, n % 1_00_00_000 % 1_00_000 % 1000 % 100;
    TokensByGroups(n, c, l, th, h, r);
    lakh := TwelveLakh(l);
    thousand := ThirtyFourThousand(th);
    hundred := FiveHundred(h);
    tail := SixtySeven(r);
    AssembledGroups(Tokens(n), Group(c, "Crore"), Group(l, "Lakh"), Group(th, "Thousand"), Group(h, "Hundred"),
      Tail(r, Group(c, "Crore") + Group(l, "Lakh") + Group(th, "Thousand") + Group(h, "Hundred") != []),
      Tail(r, true), lakh);
  }

  lemma AssembledGroups(tokens: seq<string>, crore: seq<string>, lakh: seq<string>, thousand: seq<string>,
                        hundred: seq<string>, tail: seq<string>, tailAfterGroup: seq<string>,
                        lakhWords: seq<string>)
    requires tokens == crore + lakh + thousand + hundred + tail
    requires crore == [] && lakh == lakhWords && lakhWords != []
    requires (crore + lakh + thousand + hundred != [] ==> tail == tailAfterGroup)
    ensures tokens == lakh + thousand + hundred + tailAfterGroup
  {
    assert crore + lakh + thousand + hundred != [];
  }

  lemma TwelveLakh(q: nat) returns (g: seq<string>)
    requires q == 12
    ensures g == ["Twelve", "Lakh"] && Group(q, "Lakh") == g
  {
    g := ["Twelve", "Lakh"];
    GroupBelowHundred(q, "Lakh");
  }

  lemma ThirtyFourThousand(q: nat) returns (g: seq<string>)
    requires q == 34
    ensures g == ["Thirty", "Four", "Thousand"] && Group(q, "Thousand") == g
  {
    g := ["Thirty", "Four", "Thousand"];
    GroupBelowHundred(q, "Thousand");
    ThirtyFour(q);
  }

  lemma ThirtyFour(q: int)
    requires q == 34
    ensures SmallTokens(q) == ["Thirty", "Four"]
  {
    assert TensMap[q / 10] == "Thirty" && UnitsMap[q % 10] == "Four";
  }

  lemma FiveHundred(q: nat) returns (g: seq<string>)
    requires q == 5
    ensures g == ["Five", "Hundred"] && Group(q, "Hundred") == g
  {
    g := ["Five", "Hundred"];
    GroupBelowHundred(q, "Hundred");
  }

  lemma SixtySeven(r: int) returns (t: seq<string>)
    requires r == 67
    ensures t == ["and", "Sixty", "Seven"] && Tail(r, true) == t
  {
    t := ["and", "Sixty", "Seven"];
  }
}
