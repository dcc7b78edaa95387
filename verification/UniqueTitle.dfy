/** Titles of config entries: unique up to case, by the smallest free numeric suffix. */
module UniqueTitle {
  import opened Wrappers

  // ----------------------------------------------------------------- case folding

  const PLAIN: string := "0123456789_"

  /** Case folding maps each character on its own, and leaves digits and the underscore alone. */
  predicate FoldsPlain(fold: char -> string) {
    forall i :: 0 <= i < |PLAIN| ==> fold(PLAIN[i]) == [PLAIN[i]]
  }

  const KEEP_CASE: char -> string := c => [c]

  type Folding = fold: char -> string | FoldsPlain(fold) witness KEEP_CASE

  function CaseFold(fold: Folding, text: string): string {
    if text == "" then "" else fold(text[0]) + CaseFold(fold, text[1..])
  }

  lemma {:induction false} CaseFoldConcat(fold: Folding, a: string, b: string)
    ensures CaseFold(fold, a + b) == CaseFold(fold, a) + CaseFold(fold, b)
  {
    if a == "" {
      assert a + b == b;
    } else {
      assert (a + b)[1..] == a[1..] + b;
      CaseFoldConcat(fold, a[1..], b);
    }
  }

  // -------------------------------------------------------------------- suffixes

  function Decimal(n: nat): (digits: string)
    ensures digits != "" && forall i :: 0 <= i < |digits| ==> digits[i] in PLAIN
  {
    if n < 10 then [PLAIN[n]] else Decimal(n / 10) + [PLAIN[n % 10]]
  }

  function Digit(c: char): nat {
    if '0' <= c <= '9' then c as nat - '0' as nat else 0
  }

  function NumberOf(digits: string): nat {
    if digits == "" then 0 else NumberOf(digits[..|digits| - 1]) * 10 + Digit(digits[|digits| - 1])
  }

  /** A number can be read back from its digits, so different numbers print differently. */
  lemma {:induction false} NumberOfDecimal(n: nat)
    ensures NumberOf(Decimal(n)) == n
  {
    assert forall d :: 0 <= d < 10 ==> Digit(PLAIN[d]) == d;
    if n < 10 {
      assert Decimal(n)[..0] == "";
    } else {
      NumberOfDecimal(n / 10);
      assert Decimal(n)[..|Decimal(n)| - 1] == Decimal(n / 10);
    }
  }

  /** Digits only, and no zero in front of others. */
  predicate IsNumeral(digits: string) {
    && digits != "" && (forall i :: 0 <= i < |digits| ==> '0' <= digits[i] <= '9')
    && (|digits| > 1 ==> digits[0] != '0')
  }

  lemma DigitIsPlain(c: char)
    requires '0' <= c <= '9'
    ensures Digit(c) < 10 && PLAIN[Digit(c)] == c
  {
    assert forall d :: 0 <= d < 10 ==> PLAIN[d] as int == '0' as int + d;
  }

  lemma {:induction false} NumeralOf(digits: string)
    requires IsNumeral(digits)
    ensures digits == Decimal(NumberOf(digits)) && (NumberOf(digits) == 0 ==> digits == "0")
    decreases |digits|
  {
    var front, last := digits[..|digits| - 1], digits[|digits| - 1];
    DigitIsPlain(last);
    assert digits == front + [last];
    if |digits| > 1 {
      NumeralOf(front);
      LastDigit(NumberOf(front), Digit(last));
    }
  }

  lemma LastDigit(n: nat, digit: nat)
    requires n > 0 && digit < 10
    ensures Decimal(n * 10 + digit) == Decimal(n) + [PLAIN[digit]]
  {
  }

  lemma {:induction false} DecimalIsNumeral(n: nat)
    ensures IsNumeral(Decimal(n)) && (n > 0 ==> Decimal(n)[0] != '0')
  {
    assert forall d :: 0 <= d < 10 ==> PLAIN[d] as int == '0' as int + d;
    if n >= 10 {
      DecimalIsNumeral(n / 10);
    }
  }

  /** A suffix is written as the one numeral of its value, without leading zeros. */
  lemma DecimalExactly(n: nat, digits: string)
    ensures digits == Decimal(n) <==> IsNumeral(digits) && NumberOf(digits) == n
  {
    DecimalIsNumeral(n);
    NumberOfDecimal(n);
    if IsNumeral(digits) {
      NumeralOf(digits);
    }
  }

  lemma {:induction false} PlainFoldsToItself(fold: Folding, text: string)
    requires forall i :: 0 <= i < |text| ==> text[i] in PLAIN
    ensures CaseFold(fold, text) == text
  {
    if text != "" {
      PlainFoldsToItself(fold, text[1..]);
      var i :| 0 <= i < |PLAIN| && PLAIN[i] == text[0];
      assert fold(text[0]) == [text[0]];
    }
  }

  function Suffixed(requested: string, suffix: nat): string {
    requested + ("_" + Decimal(suffix))
  }

  lemma SuffixedFolds(fold: Folding, requested: string, suffix: nat)
    ensures CaseFold(fold, Suffixed(requested, suffix)) == CaseFold(fold, requested) + ("_" + Decimal(suffix))
  {
    CaseFoldConcat(fold, requested, "_" + Decimal(suffix));
    PlainFoldsToItself(fold, "_" + Decimal(suffix));
  }

  /** Folded candidates differ from each other and from the folded request. */
  lemma CandidatesDiffer(fold: Folding, requested: string, a: nat, b: nat)
    requires a != b
    ensures CaseFold(fold, Suffixed(requested, a)) != CaseFold(fold, Suffixed(requested, b))
    ensures CaseFold(fold, Suffixed(requested, a)) != CaseFold(fold, requested)
  {
    SuffixedFolds(fold, requested, a);
    SuffixedFolds(fold, requested, b);
    var folded := CaseFold(fold, requested);
    if folded + ("_" + Decimal(a)) == folded + ("_" + Decimal(b)) {
      assert (folded + ("_" + Decimal(a)))[|folded| + 1..] == Decimal(a);
      assert (folded + ("_" + Decimal(b)))[|folded| + 1..] == Decimal(b);
      NumberOfDecimal(a);
      NumberOfDecimal(b);
    }
  }

  // -------------------------------------------------------------------- choosing

  datatype Entry = Entry(id: nat, title: string)

  /** The folded titles of all entries but the one being reconfigured. */
  function Used(fold: Folding, entries: seq<Entry>, current: Option<nat>): set<string> {
    set i | 0 <= i < |entries| && (current.None? || entries[i].id != current.value) :: CaseFold(fold, entries[i].title)
  }

  predicate TakenBelow(fold: Folding, used: set<string>, requested: string, suffix: nat) {
    && CaseFold(fold, requested) in used
    && forall k :: 2 <= k < suffix ==> CaseFold(fold, Suffixed(requested, k)) in used
  }

  /** The folded candidates below `suffix`, and the folded request. */
  function Candidates(fold: Folding, requested: string, suffix: nat): set<string> {
    if suffix <= 2 then {CaseFold(fold, requested)}
    else Candidates(fold, requested, suffix - 1) + {CaseFold(fold, Suffixed(requested, suffix - 1))}
  }

  lemma {:induction false} CandidatesAreMany(fold: Folding, used: set<string>, requested: string, suffix: nat)
    requires suffix >= 2 && TakenBelow(fold, used, requested, suffix)
    ensures Candidates(fold, requested, suffix) <= used
    ensures |Candidates(fold, requested, suffix)| == suffix - 1
    ensures forall k :: k >= suffix ==> CaseFold(fold, Suffixed(requested, k)) !in Candidates(fold, requested, suffix)
  {
    forall k | k >= suffix
      ensures CaseFold(fold, Suffixed(requested, k)) != CaseFold(fold, requested)
      ensures CaseFold(fold, Suffixed(requested, k)) != CaseFold(fold, Suffixed(requested, suffix - 1))
    {
      CandidatesDiffer(fold, requested, k, suffix - 1);
    }
    if suffix > 2 {
      CandidatesAreMany(fold, used, requested, suffix - 1);
    }
  }

  lemma {:induction false} SubsetIsSmaller<T>(a: set<T>, b: set<T>)
    requires a <= b
    ensures |a| <= |b|
    decreases a
  {
    if a != {} {
      var x :| x in a;
      SubsetIsSmaller(a - {x}, b - {x});
    }
  }

  /** No more suffixes can be taken than there are used titles. */
  lemma TakenAreFew(fold: Folding, used: set<string>, requested: string, suffix: nat)
    requires suffix >= 2 && TakenBelow(fold, used, requested, suffix)
    ensures suffix <= |used| + 1
  {
    CandidatesAreMany(fold, used, requested, suffix);
    SubsetIsSmaller(Candidates(fold, requested, suffix), used);
  }

  lemma OneMoreTaken(fold: Folding, used: set<string>, requested: string, suffix: nat)
    requires suffix >= 2 && TakenBelow(fold, used, requested, suffix)
    requires CaseFold(fold, Suffixed(requested, suffix)) in used
    ensures TakenBelow(fold, used, requested, suffix + 1) && suffix + 1 <= |used| + 1
  {
    TakenAreFew(fold, used, requested, suffix + 1);
  }

  predicate SmallestFree(fold: Folding, used: set<string>, requested: string, suffix: nat) {
    && 2 <= suffix <= |used| + 1
    && TakenBelow(fold, used, requested, suffix) && CaseFold(fold, Suffixed(requested, suffix)) !in used
  }

  /** The request itself when it is free, else the request with the smallest free suffix. */
  ghost predicate Chosen(fold: Folding, used: set<string>, requested: string, title: string) {
    if CaseFold(fold, requested) !in used then title == requested
    else exists suffix :: SmallestFree(fold, used, requested, suffix) && title == Suffixed(requested, suffix)
  }

  /** Some other entry has this title, up to case. */
  predicate IsUsed(fold: Folding, entries: seq<Entry>, current: Option<nat>, title: string) {
    exists i :: 0 <= i < |entries| && Some(entries[i].id) != current
      && CaseFold(fold, entries[i].title) == CaseFold(fold, title)
  }

  lemma UsedExactly(fold: Folding, entries: seq<Entry>, current: Option<nat>, title: string)
    ensures CaseFold(fold, title) in Used(fold, entries, current) <==> IsUsed(fold, entries, current, title)
  {
  }

  /** A number from two on, written as a numeral, such that all smaller ones give used titles. */
  ghost predicate LeastNumeral(
    fold: Folding, entries: seq<Entry>, current: Option<nat>, requested: string, digits: string)
  {
    && IsNumeral(digits) && NumberOf(digits) >= 2
    && forall smaller: string :: IsNumeral(smaller) && 2 <= NumberOf(smaller) < NumberOf(digits) ==>
         IsUsed(fold, entries, current, requested + ("_" + smaller))
  }

  lemma SmallestFreeIsLeast(fold: Folding, entries: seq<Entry>, current: Option<nat>, requested: string, n: nat)
    requires SmallestFree(fold, Used(fold, entries, current), requested, n)
    ensures LeastNumeral(fold, entries, current, requested, Decimal(n))
  {
    DecimalExactly(n, Decimal(n));
    forall smaller: string | IsNumeral(smaller) && 2 <= NumberOf(smaller) < n
      ensures IsUsed(fold, entries, current, requested + ("_" + smaller))
    {
      DecimalExactly(NumberOf(smaller), smaller);
      assert CaseFold(fold, Suffixed(requested, NumberOf(smaller))) in Used(fold, entries, current);
    }
  }

  /**
   * The request when no other entry uses it, else the request, an underscore and the numeral of
   * the smallest number from two on whose title no other entry uses.
   */
  lemma ChosenExactly(fold: Folding, entries: seq<Entry>, current: Option<nat>, requested: string, title: string)
    requires Chosen(fold, Used(fold, entries, current), requested, title)
    ensures !IsUsed(fold, entries, current, title)
    ensures !IsUsed(fold, entries, current, requested) ==> title == requested
    ensures IsUsed(fold, entries, current, requested) ==>
              exists digits: string ::
                LeastNumeral(fold, entries, current, requested, digits) && title == requested + ("_" + digits)
  {
    var used := Used(fold, entries, current);
    UsedExactly(fold, entries, current, requested);
    UsedExactly(fold, entries, current, title);
    if CaseFold(fold, requested) in used {
      var n :| SmallestFree(fold, used, requested, n) && title == Suffixed(requested, n);
      SmallestFreeIsLeast(fold, entries, current, requested, n);
    }
  }

  method UniqueTitle(fold: Folding, entries: seq<Entry>, requested: string, current: Option<nat>)
    returns (title: string)
    ensures Chosen(fold, Used(fold, entries, current), requested, title)
    ensures CaseFold(fold, title) !in Used(fold, entries, current)
  {
    var used := Used(fold, entries, current);
    if CaseFold(fold, requested) !in used {
      return requested;
    }
    var suffix := 2;
    TakenAreFew(fold, used, requested, suffix);
    while CaseFold(fold, Suffixed(requested, suffix)) in used
      invariant 2 <= suffix <= |used| + 1
      invariant TakenBelow(fold, used, requested, suffix)
      decreases |used| + 1 - suffix
    {
      OneMoreTaken(fold, used, requested, suffix);
      suffix := suffix + 1;
    }
    assert SmallestFree(fold, used, requested, suffix);
    title := Suffixed(requested, suffix);
  }

  /** The choice is determined by the used titles. */
  lemma ChosenIsUnique(fold: Folding, used: set<string>, requested: string, a: string, b: string)
    requires Chosen(fold, used, requested, a) && Chosen(fold, used, requested, b)
    ensures a == b
  {
    if CaseFold(fold, requested) in used {
      var i :| SmallestFree(fold, used, requested, i) && a == Suffixed(requested, i);
      var j :| SmallestFree(fold, used, requested, j) && b == Suffixed(requested, j);
    }
  }

  predicate TitlesDiffer(fold: Folding, entries: seq<Entry>) {
    forall i, j :: 0 <= i < j < |entries| ==> CaseFold(fold, entries[i].title) != CaseFold(fold, entries[j].title)
  }

  /** Entries whose titles differ up to case still do after one is added under a chosen title. */
  lemma AddingKeepsTitlesDifferent(fold: Folding, entries: seq<Entry>, requested: string, title: string, id: nat)
    requires TitlesDiffer(fold, entries) && Chosen(fold, Used(fold, entries, None), requested, title)
    ensures TitlesDiffer(fold, entries + [Entry(id, title)])
  {
    assert forall i :: 0 <= i < |entries| ==> CaseFold(fold, entries[i].title) in Used(fold, entries, None);
  }

  /** ... and after one is reconfigured. */
  lemma RenamingKeepsTitlesDifferent(fold: Folding, entries: seq<Entry>, requested: string, title: string, current: nat)
    requires current < |entries| && TitlesDiffer(fold, entries)
    requires forall i, j :: 0 <= i < j < |entries| ==> entries[i].id != entries[j].id
    requires Chosen(fold, Used(fold, entries, Some(entries[current].id)), requested, title)
    ensures TitlesDiffer(fold, entries[current := entries[current].(title := title)])
  {
    assert forall i :: 0 <= i < |entries| && i != current ==>
             CaseFold(fold, entries[i].title) in Used(fold, entries, Some(entries[current].id));
  }
}
