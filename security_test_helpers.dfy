/** `SecurityTestHelpers`: the keyword scanner for error messages and the
    mutation-based fuzz generator. The generator's random source is replaced by
    caller-supplied draws, each constrained to what `random.randint` and
    `random.choice(string.printable)` can return. */
module SecurityTestHelpers {
  import opened Wrappers
  import opened Text

  // ---------------------------------------------------------------------------
  // Sensitive-data scanner (utils/security_payloads.py:228-247)

  const SensitiveKeywords: seq<string> := [
    "mysql", "sql", "database", "table", "column", "syntax", "version",
    "oracle", "postgresql", "sqlite", "mongodb", "redis",
    "error", "exception", "stack", "trace", "debug",
    "admin", "root", "password", "username", "credential",
    "path", "directory", "file", "system", "server",
    "connection", "driver", "port", "host", "localhost"
  ]

  predicate Distinct<T(==)>(s: seq<T>)
  {
    forall i, j :: 0 <= i < j < |s| ==> s[i] != s[j]
  }

  /** The keywords of `keys` from index `i` on that occur in `text`, in list order. */
  function KeywordsFrom(keys: seq<string>, text: string, i: nat): seq<string>
    decreases |keys| - i
  {
    if i >= |keys| then []
    else (if Occurs(keys[i], text) then [keys[i]] else []) + KeywordsFrom(keys, text, i + 1)
  }

  /** The keywords of `keys` that occur in `text`, in list order. */
  function KeywordsIn(keys: seq<string>, text: string): seq<string>
  {
    KeywordsFrom(keys, text, 0)
  }

  /** The indices, from `i` on, of the keywords of `keys` that occur in `text`. */
  ghost function HitsFrom(keys: seq<string>, text: string, i: nat): seq<nat>
    decreases |keys| - i
  {
    if i >= |keys| then []
    else (if Occurs(keys[i], text) then [i] else []) + HitsFrom(keys, text, i + 1)
  }

  /** `found` picks the entries of `keys` at the strictly increasing indices `idx`. */
  ghost predicate SelectedInOrder(found: seq<string>, keys: seq<string>, idx: seq<nat>)
  {
    && |idx| == |found|
    && (forall i :: 0 <= i < |idx| ==> idx[i] < |keys| && found[i] == keys[idx[i]])
    && (forall i, j :: 0 <= i < j < |idx| ==> idx[i] < idx[j])
  }

  /** A keyword is reported exactly when it is in the list at index `i` or later
      and occurs in the text. */
  lemma {:induction false} KeywordsFromMembership(keys: seq<string>, text: string, i: nat)
    ensures forall k :: k in KeywordsFrom(keys, text, i) <==>
      exists j :: i <= j < |keys| && keys[j] == k && Occurs(k, text)
    decreases |keys| - i
  {
    if i < |keys| {
      KeywordsFromMembership(keys, text, i + 1);
    }
  }

  /** A keyword is reported exactly when it is in the list and occurs in the text. */
  lemma KeywordsInMembership(keys: seq<string>, text: string)
    ensures forall k :: k in KeywordsIn(keys, text) <==> k in keys && Occurs(k, text)
  {
    KeywordsFromMembership(keys, text, 0);
    forall k | k in keys && Occurs(k, text)
      ensures k in KeywordsIn(keys, text)
    {
      var j :| 0 <= j < |keys| && keys[j] == k;
    }
  }

  /** The keyword at index `j` is reported when it occurs in the text. */
  lemma ReportedIfOccurs(keys: seq<string>, text: string, j: nat)
    requires j < |keys| && Occurs(keys[j], text)
    ensures keys[j] in KeywordsIn(keys, text)
  {
    KeywordsInMembership(keys, text);
  }

  /** The keywords reported from index `i` on are picked at increasing indices,
      all at least `i`. */
  lemma {:induction false} KeywordsFromOrder(keys: seq<string>, text: string, i: nat)
    ensures SelectedInOrder(KeywordsFrom(keys, text, i), keys, HitsFrom(keys, text, i))
    ensures forall n :: 0 <= n < |HitsFrom(keys, text, i)| ==> i <= HitsFrom(keys, text, i)[n]
    decreases |keys| - i
  {
    if i < |keys| {
      KeywordsFromOrder(keys, text, i + 1);
    }
  }

  /** The reported keywords come in the order of the keyword list. */
  lemma KeywordsInOrder(keys: seq<string>, text: string)
    ensures SelectedInOrder(KeywordsIn(keys, text), keys, HitsFrom(keys, text, 0))
  {
    KeywordsFromOrder(keys, text, 0);
  }

  /** Picking at increasing indices from a list without repeats gives no repeats. */
  lemma DistinctSelection(found: seq<string>, keys: seq<string>, idx: seq<nat>)
    requires Distinct(keys) && SelectedInOrder(found, keys, idx)
    ensures Distinct(found)
  {
    forall i, j | 0 <= i < j < |found|
      ensures found[i] != found[j]
    {
      assert idx[i] < idx[j];
    }
  }

  lemma SensitiveKeywordsDistinct()
    ensures Distinct(SensitiveKeywords)
  {
  }

  /** The loop of `check_for_sensitive_data_leak`, over a keyword list `keys`
      and an already lower-cased message. */
  method ScanKeywords(keys: seq<string>, errorLower: string) returns (found: seq<string>)
    ensures found == KeywordsIn(keys, errorLower)
    ensures forall k :: k in found <==> k in keys && Occurs(k, errorLower)
    ensures SelectedInOrder(found, keys, HitsFrom(keys, errorLower, 0))
    ensures Distinct(keys) ==> Distinct(found)
  {
    found := [];
    for i := 0 to |keys|
      invariant found + KeywordsFrom(keys, errorLower, i) == KeywordsIn(keys, errorLower)
    {
      var keyword := keys[i];
      if Occurs(keyword, errorLower) {
        found := found + [keyword];
      }
    }
    KeywordsInMembership(keys, errorLower);
    KeywordsInOrder(keys, errorLower);
    if Distinct(keys) {
      DistinctSelection(found, keys, HitsFrom(keys, errorLower, 0));
    }
  }

  /** `check_for_sensitive_data_leak`: the sensitive keywords found in the
      lower-cased message, in list order, each once. */
  method CheckForSensitiveDataLeak(errorMessage: string) returns (found: seq<string>)
    ensures found == KeywordsIn(SensitiveKeywords, Lower(errorMessage))
    ensures forall k :: k in found <==> k in SensitiveKeywords && Occurs(k, Lower(errorMessage))
    ensures SelectedInOrder(found, SensitiveKeywords, HitsFrom(SensitiveKeywords, Lower(errorMessage), 0))
    ensures Distinct(found)
  {
    var errorLower := Lower(errorMessage);
    SensitiveKeywordsDistinct();
    found := ScanKeywords(SensitiveKeywords, errorLower);
  }

  /** No non-empty keyword occurs in an empty text. */
  lemma {:induction false} NothingInEmptyText(keys: seq<string>, text: string, i: nat)
    requires |text| == 0 && forall j :: 0 <= j < |keys| ==> |keys[j]| > 0
    ensures KeywordsFrom(keys, text, i) == []
    decreases |keys| - i
  {
    if i < |keys| {
      NothingInEmptyText(keys, text, i + 1);
    }
  }

  /** An empty message (whose lower case is empty) reports nothing. */
  lemma EmptyMessageReportsNothing(errorMessage: string)
    requires |errorMessage| == 0
    ensures KeywordsIn(SensitiveKeywords, Lower(errorMessage)) == []
  {
    NothingInEmptyText(SensitiveKeywords, Lower(errorMessage), 0);
  }

  /** Overlapping keywords are all reported: when a reported keyword contains
      another keyword of the list, that one is reported too. */
  lemma OverlapsKept(keys: seq<string>, text: string, outer: string, inner: string)
    requires outer in KeywordsIn(keys, text) && inner in keys && Occurs(inner, outer)
    ensures inner in KeywordsIn(keys, text)
  {
    KeywordsInMembership(keys, text);
    OccursTransitive(inner, outer, text);
  }

  /** A message whose lower case contains "mysql" reports both 'mysql' and
      'sql'. */
  lemma MysqlReportsBoth(errorLower: string)
    requires Occurs("mysql", errorLower)
    ensures "mysql" in KeywordsIn(SensitiveKeywords, errorLower)
    ensures "sql" in KeywordsIn(SensitiveKeywords, errorLower)
  {
    assert Occurs("sql", "mysql");
    OccursTransitive("sql", "mysql", errorLower);
    assert SensitiveKeywords[0] == "mysql" && SensitiveKeywords[1] == "sql";
    ReportedIfOccurs(SensitiveKeywords, errorLower, 0);
    ReportedIfOccurs(SensitiveKeywords, errorLower, 1);
  }

  /** Any spelling of MySQL in the raw message ("MySQL", "MYSQL", ...) makes the
      scan of its lower case report both 'mysql' and 'sql'. */
  lemma MysqlInAnyCase(errorMessage: string, spelling: string)
    requires Occurs(spelling, errorMessage) && Lower(spelling) == "mysql"
    ensures "mysql" in KeywordsIn(SensitiveKeywords, Lower(errorMessage))
    ensures "sql" in KeywordsIn(SensitiveKeywords, Lower(errorMessage))
  {
    LowerKeepsOccurrence(spelling, errorMessage);
    MysqlReportsBoth(Lower(errorMessage));
  }

  // ---------------------------------------------------------------------------
  // Fuzz-data generator (utils/security_payloads.py:268-295)

  /** The ASCII characters from `first` to `last`, in code order. */
  function CharRange(first: char, last: char): (r: string)
    requires first <= last && last as int < 128
    ensures |r| == last as int - first as int + 1
    ensures forall i :: 0 <= i < |r| ==> r[i] as int == first as int + i
  {
    seq(last as int - first as int + 1, i requires 0 <= i <= last as int - first as int => (first as int + i) as char)
  }

  lemma CharRangeMembership(first: char, last: char, c: char)
    requires first <= last && last as int < 128
    ensures c in CharRange(first, last) <==> first <= c <= last
  {
    if first <= c <= last {
      assert CharRange(first, last)[c as int - first as int] == c;
    }
  }

  /** Python's `string.printable`: digits, lower-case and upper-case ASCII
      letters, the 32 punctuation characters from '!' to '~', then space, tab,
      line feed, carriage return, vertical tab and form feed. */
  const Printable: string :=
    CharRange('0', '9') + CharRange('a', 'z') + CharRange('A', 'Z')
    + CharRange('!', '/') + CharRange(':', '@') + CharRange('[', '`') + CharRange('{', '~')
    + " \t\n\r\U{B}\U{C}"

  /** A character `random.choice(string.printable)` can return: visible ASCII,
      space, or one of the control characters from tab to carriage return. */
  predicate IsPrintable(c: char)
  {
    ' ' <= c <= '~' || '\t' <= c <= '\r'
  }

  /** `string.printable` holds 100 characters, and they are exactly the
      printable ones. */
  lemma PrintableCharacters()
    ensures |Printable| == 100
    ensures forall c :: c in Printable <==> IsPrintable(c)
  {
    forall c: char
      ensures c in Printable <==> IsPrintable(c)
    {
      CharRangeMembership('0', '9', c);
      CharRangeMembership('a', 'z', c);
      CharRangeMembership('A', 'Z', c);
      CharRangeMembership('!', '/', c);
      CharRangeMembership(':', '@', c);
      CharRangeMembership('[', '`', c);
      CharRangeMembership('{', '~', c);
    }
  }

  /** The random draws of one round: the insertion index and character, the
      deletion index and the replacement index and character. */
  datatype Draw = Draw(insertAt: int, insertChar: char, deleteAt: int, replaceAt: int, replaceChar: char)

  /** What `random.randint` and `random.choice(string.printable)` can return for
      a base string of length `n`. A draw the code never makes is unconstrained:
      the deletion index when `n <= 1`, the replacement index when `n == 0`
      (there `randint(0, -1)` raises instead of returning). */
  predicate DrawFits(d: Draw, n: nat)
  {
    && 0 <= d.insertAt <= n && IsPrintable(d.insertChar)
    && (n > 1 ==> 0 <= d.deleteAt <= n - 1)
    && (n >= 1 ==> 0 <= d.replaceAt <= n - 1)
    && IsPrintable(d.replaceChar)
  }

  predicate DrawsFit(draws: seq<Draw>, n: nat)
  {
    forall i :: 0 <= i < |draws| ==> DrawFits(draws[i], n)
  }

  /** `s[:p] + c + s[p:]`. */
  function Insert(s: string, p: int, c: char): (r: string)
    requires 0 <= p <= |s|
    ensures |r| == |s| + 1 && r[p] == c
    ensures forall j :: 0 <= j < p ==> r[j] == s[j]
    ensures forall j :: p < j < |r| ==> r[j] == s[j - 1]
  {
    s[..p] + [c] + s[p..]
  }

  /** `s[:p] + s[p + 1:]`. */
  function Delete(s: string, p: int): (r: string)
    requires 0 <= p < |s|
    ensures |r| == |s| - 1
    ensures forall j :: 0 <= j < p ==> r[j] == s[j]
    ensures forall j :: p <= j < |r| ==> r[j] == s[j + 1]
  {
    s[..p] + s[p + 1..]
  }

  /** `s[:p] + c + s[p + 1:]`. */
  function Replace(s: string, p: int, c: char): (r: string)
    requires 0 <= p < |s|
    ensures |r| == |s| && r[p] == c
    ensures forall j :: 0 <= j < |s| && j != p ==> r[j] == s[j]
  {
    s[..p] + [c] + s[p + 1..]
  }

  /** Removing the inserted character gives the base string back. */
  lemma DeleteUndoesInsert(s: string, p: int, c: char)
    requires 0 <= p <= |s|
    ensures Delete(Insert(s, p, c), p) == s
  {
    var r := Delete(Insert(s, p, c), p);
    assert forall j :: 0 <= j < |s| ==> r[j] == s[j];
  }

  /** Putting the old character back undoes a replacement. */
  lemma ReplaceUndone(s: string, p: int, c: char)
    requires 0 <= p < |s|
    ensures Replace(Replace(s, p, c), p, s[p]) == s
  {
    var r := Replace(Replace(s, p, c), p, s[p]);
    assert forall j :: 0 <= j < |s| ==> r[j] == s[j];
  }

  /** `s` is `base` with one printable character inserted somewhere. */
  ghost predicate IsInsertionOf(s: string, base: string)
  {
    exists p :: 0 <= p < |s| && IsPrintable(s[p]) && Delete(s, p) == base
  }

  /** `s` is `base` with one character removed. */
  ghost predicate IsDeletionOf(s: string, base: string)
  {
    exists p :: 0 <= p < |base| && Delete(base, p) == s
  }

  /** `s` is `base` with the character at one index replaced by a printable one. */
  ghost predicate IsReplacementOf(s: string, base: string)
  {
    && |s| == |base|
    && exists p :: 0 <= p < |base| && IsPrintable(s[p]) &&
         forall j :: 0 <= j < |base| && j != p ==> s[j] == base[j]
  }

  /** Strings per round: insertion, deletion (only when the base is longer than
      one character) and replacement. */
  function RoundWidth(n: nat): nat
  {
    if n > 1 then 3 else 2
  }

  /** The strings one round appends, in order. */
  function RoundVariants(base: string, d: Draw): seq<string>
    requires |base| >= 1 && DrawFits(d, |base|)
  {
    [Insert(base, d.insertAt, d.insertChar)]
    + (if |base| > 1 then [Delete(base, d.deleteAt)] else [])
    + [Replace(base, d.replaceAt, d.replaceChar)]
  }

  /** Everything appended by the rounds that use `draws`, one round per draw. */
  function FuzzingData(base: string, draws: seq<Draw>): (r: seq<string>)
    requires (|draws| > 0 ==> |base| >= 1) && DrawsFit(draws, |base|)
    ensures |r| == RoundWidth(|base|) * |draws|
  {
    if draws == [] then []
    else
      var init := FuzzingData(base, draws[..|draws| - 1]);
      var round := RoundVariants(base, draws[|draws| - 1]);
      assert |round| == RoundWidth(|base|);
      assert RoundWidth(|base|) * (|draws| - 1) + RoundWidth(|base|) == RoundWidth(|base|) * |draws|;
      init + round
  }

  /** The number of iterations of `range(m)`. */
  function Rounds(m: int): nat
  {
    if m < 0 then 0 else m
  }

  /** Round `i` occupies the `RoundWidth` strings starting at `RoundWidth * i`. */
  lemma {:induction false} FuzzingDataRound(base: string, draws: seq<Draw>, i: nat)
    requires |base| >= 1 && DrawsFit(draws, |base|) && i < |draws|
    ensures RoundWidth(|base|) * i + RoundWidth(|base|) <= |FuzzingData(base, draws)|
    ensures FuzzingData(base, draws)[RoundWidth(|base|) * i..RoundWidth(|base|) * i + RoundWidth(|base|)]
            == RoundVariants(base, draws[i])
  {
    var w := RoundWidth(|base|);
    var init := draws[..|draws| - 1];
    var out := FuzzingData(base, draws);
    assert out == FuzzingData(base, init) + RoundVariants(base, draws[|draws| - 1]);
    if i == |draws| - 1 {
      assert out[w * i..w * i + w] == RoundVariants(base, draws[i]);
    } else {
      FuzzingDataRound(base, init, i);
      assert w * i + w <= w * |init| by {
        assert w * (|init| - i) >= w;
      }
      assert out[w * i..w * i + w] == FuzzingData(base, init)[w * i..w * i + w];
    }
  }

  /** The three kinds of variant, stated without the draws that made them. */
  lemma VariantsAreEdits(base: string, d: Draw)
    requires |base| >= 1 && DrawFits(d, |base|)
    ensures IsInsertionOf(Insert(base, d.insertAt, d.insertChar), base)
    ensures |base| > 1 ==> IsDeletionOf(Delete(base, d.deleteAt), base)
    ensures IsReplacementOf(Replace(base, d.replaceAt, d.replaceChar), base)
  {
    var ins := Insert(base, d.insertAt, d.insertChar);
    DeleteUndoesInsert(base, d.insertAt, d.insertChar);
    assert IsPrintable(ins[d.insertAt]) && Delete(ins, d.insertAt) == base;
    var rep := Replace(base, d.replaceAt, d.replaceChar);
    assert IsPrintable(rep[d.replaceAt]);
  }

  /** Whatever the draws, each round yields an insertion, then a deletion when
      the base is longer than one character, then a replacement. */
  lemma FuzzingDataAreEdits(base: string, draws: seq<Draw>, i: nat)
    requires |base| >= 1 && DrawsFit(draws, |base|) && i < |draws|
    ensures var w := RoundWidth(|base|); var out := FuzzingData(base, draws);
      && w * i + w <= |out|
      && IsInsertionOf(out[w * i], base)
      && (|base| > 1 ==> IsDeletionOf(out[w * i + 1], base))
      && IsReplacementOf(out[w * i + w - 1], base)
  {
    var w := RoundWidth(|base|);
    var out := FuzzingData(base, draws);
    var d := draws[i];
    FuzzingDataRound(base, draws, i);
    var k := w * i;
    var round := out[k..k + w];
    RoundEdits(base, d, round);
    assert out[k] == round[0];
    assert out[k + w - 1] == round[w - 1];
    if |base| > 1 {
      assert out[k + 1] == round[1];
    }
  }

  lemma RoundEdits(base: string, d: Draw, round: seq<string>)
    requires |base| >= 1 && DrawFits(d, |base|) && round == RoundVariants(base, d)
    ensures |round| == RoundWidth(|base|)
    ensures IsInsertionOf(round[0], base)
    ensures |base| > 1 ==> IsDeletionOf(round[1], base)
    ensures IsReplacementOf(round[|round| - 1], base)
  {
    VariantsAreEdits(base, d);
  }

  /** A base string of length one gives no deletion: two strings per round. */
  lemma SingleCharacterBase(base: string, draws: seq<Draw>)
    requires |base| == 1 && DrawsFit(draws, |base|)
    ensures |FuzzingData(base, draws)| == 2 * |draws|
    ensures forall s :: s in FuzzingData(base, draws) ==> |s| == 1 || |s| == 2
  {
    FuzzingDataLengths(base, draws);
  }

  /** Every string is one longer, one shorter (only for bases longer than one
      character) or as long as the base. */
  lemma {:induction false} FuzzingDataLengths(base: string, draws: seq<Draw>)
    requires (|draws| > 0 ==> |base| >= 1) && DrawsFit(draws, |base|)
    ensures forall s :: s in FuzzingData(base, draws) ==>
      |s| == |base| + 1 || (|base| > 1 && |s| == |base| - 1) || |s| == |base|
  {
    if draws != [] {
      var init := draws[..|draws| - 1];
      FuzzingDataLengths(base, init);
      var round := RoundVariants(base, draws[|draws| - 1]);
      assert forall s :: s in round ==>
        |s| == |base| + 1 || (|base| > 1 && |s| == |base| - 1) || |s| == |base|;
      assert FuzzingData(base, draws) == FuzzingData(base, init) + round;
    }
  }

  /** `generate_fuzzing_data("ab", 1)`: an insertion of length 3 from which one
      removed character gives "ab", then "a" or "b", then a string of length 2
      that keeps one of the two characters of "ab" in place. */
  lemma OneRoundOnAb(d: Draw)
    requires DrawFits(d, 2)
    ensures var out := FuzzingData("ab", [d]);
      && |out| == 3
      && |out[0]| == 3 && Delete(out[0], d.insertAt) == "ab"
      && (out[1] == "a" || out[1] == "b")
      && |out[2]| == 2 && (out[2][0] == 'a' || out[2][1] == 'b')
  {
    var out := FuzzingData("ab", [d]);
    assert [d][..0] == [] && [d][0] == d;
    assert FuzzingData("ab", [d][..0]) == [];
    assert out == RoundVariants("ab", d);
    DeleteUndoesInsert("ab", d.insertAt, d.insertChar);
    assert Delete("ab", 0) == "b" && Delete("ab", 1) == "a";
  }

  /** `randint(0, len(base_string) - 1)` for the replacement index raises
      `ValueError` on an empty base string. */
  datatype FuzzError = EmptyRandomRange

  /** The default of the `mutations` parameter. */
  const DefaultMutations: nat := 100

  /** `generate_fuzzing_data(base_string, mutations)`, with the random choices
      taken from `draws` (one per round, in order). */
  method GenerateFuzzingData(baseString: string, mutations: int, draws: seq<Draw>)
    returns (r: Result<seq<string>, FuzzError>)
    requires mutations <= |draws| && DrawsFit(draws, |baseString|)
    ensures r.Failure? <==> |baseString| == 0 && mutations >= 1
    ensures mutations <= 0 ==> r == Success([])
    ensures r.Success? ==> r.value == FuzzingData(baseString, draws[..Rounds(mutations)])
    ensures r.Success? ==> |r.value| == RoundWidth(|baseString|) * Rounds(mutations)
  {
    var fuzzingData: seq<string> := [];
    for i := 0 to Rounds(mutations)
      invariant |baseString| >= 1 || i == 0
      invariant fuzzingData == FuzzingData(baseString, draws[..i])
    {
      var d := draws[i];
      assert draws[..i + 1][..i] == draws[..i];
      fuzzingData := fuzzingData + [Insert(baseString, d.insertAt, d.insertChar)];
      if |baseString| > 1 {
        fuzzingData := fuzzingData + [Delete(baseString, d.deleteAt)];
      }
      if |baseString| == 0 {
        return Failure(EmptyRandomRange);
      }
      fuzzingData := fuzzingData + [Replace(baseString, d.replaceAt, d.replaceChar)];
    }
    return Success(fuzzingData);
  }

  /** `generate_fuzzing_data(base_string)`, with `mutations` left at its
      default: 100 rounds, so 300 strings (200 for a one-character base). */
  method GenerateDefaultFuzzingData(baseString: string, draws: seq<Draw>)
    returns (r: Result<seq<string>, FuzzError>)
    requires DefaultMutations <= |draws| && DrawsFit(draws, |baseString|)
    ensures r.Failure? <==> |baseString| == 0
    ensures r.Success? ==> r.value == FuzzingData(baseString, draws[..DefaultMutations])
    ensures r.Success? ==> |r.value| == RoundWidth(|baseString|) * 100
  {
    r := GenerateFuzzingData(baseString, DefaultMutations, draws);
  }
}
