/** The pure helpers of `src/lib/utils.ts`: phone formatting and validation,
    e-mail validation, case-insensitive search, the stable date sort,
    `groupBy`, truncation, initials, the colour and BMI switches and the
    relative-time buckets (with the second difference passed in). */
module Utils {
  import opened Wrappers
  import opened Seqs
  import opened JsStrings
  import opened Records

  // ---------------------------------------------------------------------
  // Phone numbers

  /** `r` has the layout of `mask`: a `d` in the mask stands for any digit,
      every other mask character must appear literally. */
  ghost predicate Fits(r: string, mask: string) {
    |r| == |mask| &&
    forall i :: 0 <= i < |r| ==> if mask[i] == 'd' then IsDigit(r[i]) else r[i] == mask[i]
  }

  /** `formatPhoneNumber`: the digits of `phone` laid out as a North American
      number when there are ten of them, or eleven led by `1`; any other
      input comes back as given. */
  function FormatPhoneNumber(phone: string): (r: string)
    ensures |Digits(phone)| == 10 ==> Fits(r, "(ddd) ddd-dddd")
    ensures |Digits(phone)| == 11 && Digits(phone)[0] == '1' ==> Fits(r, "+1 (ddd) ddd-dddd")
    ensures |Digits(phone)| != 10 && !(|Digits(phone)| == 11 && Digits(phone)[0] == '1') ==> r == phone
  {
    var d := Digits(phone);
    if |d| == 10 then "(" + d[..3] + ") " + d[3..6] + "-" + d[6..]
    else if |d| == 11 && d[0] == '1' then "+1 (" + d[1..4] + ") " + d[4..7] + "-" + d[7..]
    else phone
  }

  /** Formatting keeps the digits, in order: the layout only adds punctuation
      (and the `+1` prefix repeats the leading `1` it replaces). */
  lemma FormatPhoneKeepsDigits(phone: string)
    ensures Digits(FormatPhoneNumber(phone)) == Digits(phone)
  {
    var d := Digits(phone);
    if |d| == 10 {
      assert FormatPhoneNumber(phone) == "(" + d[..3] + ") " + d[3..6] + "-" + d[6..];
      TenDigits(d);
    } else if |d| == 11 && d[0] == '1' {
      assert FormatPhoneNumber(phone) == "+1 (" + d[1..4] + ") " + d[4..7] + "-" + d[7..];
      ElevenDigits(d);
    }
  }

  lemma TenDigits(d: string)
    requires |d| == 10 && forall i :: 0 <= i < |d| ==> IsDigit(d[i])
    ensures Digits("(" + d[..3] + ") " + d[3..6] + "-" + d[6..]) == d
  {
    LayoutDigits("(", d[..3], ") ", d[3..6], "-", d[6..]);
    assert d == d[..3] + d[3..6] + d[6..];
  }

  lemma ElevenDigits(d: string)
    requires |d| == 11 && d[0] == '1' && forall i :: 0 <= i < |d| ==> IsDigit(d[i])
    ensures Digits("+1 (" + d[1..4] + ") " + d[4..7] + "-" + d[7..]) == d
  {
    LayoutDigits("+1 (", d[1..4], ") ", d[4..7], "-", d[7..]);
    CountryPrefixDigits();
    assert d == "1" + d[1..4] + d[4..7] + d[7..];
  }

  /** The `+1 (` prefix carries the digit `1`. */
  lemma CountryPrefixDigits()
    ensures Digits("+1 (") == "1"
  {
    DigitsAppend("+", "1 (");
    DigitsAppend("1", " (");
    assert "+1 (" == "+" + "1 (" && "1 (" == "1" + " (";
  }

  /** Digits of three digit groups separated by punctuation. */
  lemma LayoutDigits(x: string, a: string, y: string, b: string, z: string, c: string)
    requires Digits(y) == [] && Digits(z) == []
    requires forall i :: 0 <= i < |a| ==> IsDigit(a[i])
    requires forall i :: 0 <= i < |b| ==> IsDigit(b[i])
    requires forall i :: 0 <= i < |c| ==> IsDigit(c[i])
    ensures Digits(x + a + y + b + z + c) == Digits(x) + a + b + c
  {
    LayoutGroup(x, a, y);
    LayoutGroup(x + a + y, b, z);
    DigitsAppend(x + a + y + b + z, c);
    DigitsOfDigits(c);
  }

  /** Digits of a digit group followed by punctuation. */
  lemma LayoutGroup(x: string, a: string, y: string)
    requires Digits(y) == []
    requires forall i :: 0 <= i < |a| ==> IsDigit(a[i])
    ensures Digits(x + a + y) == Digits(x) + a
  {
    DigitsOfDigits(a);
    DigitsAppend(x, a);
    DigitsAppend(x + a, y);
  }

  /** Formatting an already formatted number changes nothing. */
  lemma FormatPhoneIdempotent(phone: string)
    ensures FormatPhoneNumber(FormatPhoneNumber(phone)) == FormatPhoneNumber(phone)
  {
    FormatPhoneKeepsDigits(phone);
  }

  /** The pattern `^[\+]?[1-9][\d]{0,15}$`, written out. */
  predicate MatchesPhonePattern(s: string) {
    var rest := if |s| > 0 && s[0] == '+' then s[1..] else s;
    1 <= |rest| <= 16 && '1' <= rest[0] <= '9' &&
    forall i :: 1 <= i < |rest| ==> IsDigit(rest[i])
  }

  /** `isValidPhone`: the pattern is tested on the digits alone, so a valid
      number is one of 1 to 16 digits whose first digit is not `0`. */
  function IsValidPhone(phone: string): (b: bool)
    ensures b <==> 1 <= |Digits(phone)| <= 16 && Digits(phone)[0] != '0'
  {
    MatchesPhonePattern(Digits(phone))
  }

  /** Formatting never turns a valid number invalid or the reverse. */
  lemma FormatPhoneKeepsValidity(phone: string)
    ensures IsValidPhone(FormatPhoneNumber(phone)) == IsValidPhone(phone)
  {
    FormatPhoneKeepsDigits(phone);
  }

  // ---------------------------------------------------------------------
  // E-mail addresses

  /** A character of `[^\s@]`. */
  predicate EmailChar(c: char) {
    !IsWhitespace(c) && c != '@'
  }

  predicate AllEmailChars(s: string) {
    forall i :: 0 <= i < |s| ==> EmailChar(s[i])
  }

  /** One way the pattern `^[^\s@]+@[^\s@]+\.[^\s@]+$` can match: the `@` at
      `at`, the dot before the last group at `dot`. */
  ghost predicate EmailSplit(s: string, at: int, dot: int) {
    0 < at && at + 1 < dot && dot + 1 < |s| && s[at] == '@' && s[dot] == '.' &&
    AllEmailChars(s[..at]) && AllEmailChars(s[at + 1..dot]) && AllEmailChars(s[dot + 1..])
  }

  /** The part after the `@`: no blank and no `@`, with a dot that has a
      character on either side. */
  predicate ValidDomain(d: string) {
    AllEmailChars(d) && exists k :: 0 < k < |d| - 1 && d[k] == '.'
  }

  /** `isValidEmail`: the text before the first `@` is a non-empty run of
      non-blank characters, and what follows is a valid domain. The result
      is exactly "the pattern matches". */
  function IsValidEmail(email: string): (b: bool)
    ensures b <==> exists at, dot :: EmailSplit(email, at, dot)
  {
    var at := FindIndex(email, c => c == '@');
    var b := at.Some? && at.value > 0 && AllEmailChars(email[..at.value]) && ValidDomain(email[at.value + 1..]);
    EmailMatch(email, at, b);
    b
  }

  /** A valid domain after an `@` gives a split the pattern matches. */
  lemma EmailSplitOfDomain(email: string, i: nat)
    requires 0 < i < |email| && email[i] == '@' && AllEmailChars(email[..i])
    requires ValidDomain(email[i + 1..])
    ensures exists j :: EmailSplit(email, i, j)
  {
    var d := email[i + 1..];
    var k :| 0 < k < |d| - 1 && d[k] == '.';
    var j := i + 1 + k;
    assert email[i + 1..j] == d[..k];
    assert email[j + 1..] == d[k + 1..];
    assert EmailSplit(email, i, j);
  }

  /** A split the pattern matches puts its `@` first, with a valid domain
      after it. */
  lemma DomainOfEmailSplit(email: string, i: int, j: int)
    requires EmailSplit(email, i, j)
    ensures FindIndex(email, c => c == '@') == Some(i)
    ensures ValidDomain(email[i + 1..])
  {
    assert forall m :: 0 <= m < i ==> email[m] != '@' by {
      forall m | 0 <= m < i ensures email[m] != '@' {
        assert email[..i][m] == email[m];
      }
    }
    var d := email[i + 1..];
    assert d == email[i + 1..j] + ['.'] + email[j + 1..];
    assert d[j - i - 1] == '.';
    assert AllEmailChars(d) by {
      forall m | 0 <= m < |d| ensures EmailChar(d[m]) {
        if m < j - i - 1 {
          assert d[m] == email[i + 1..j][m];
        } else if m > j - i - 1 {
          assert d[m] == email[j + 1..][m - (j - i)];
        }
      }
    }
  }

  lemma EmailMatch(email: string, at: Option<nat>, b: bool)
    requires at == FindIndex(email, c => c == '@')
    requires b == (at.Some? && at.value > 0 && AllEmailChars(email[..at.value]) && ValidDomain(email[at.value + 1..]))
    ensures b <==> exists i, j :: EmailSplit(email, i, j)
  {
    if b {
      EmailSplitOfDomain(email, at.value);
    }
    if i, j :| EmailSplit(email, i, j) {
      DomainOfEmailSplit(email, i, j);
    }
  }

  // ---------------------------------------------------------------------
  // Search

  /** Some listed field value, lower-cased, contains `needle`. */
  predicate AnyFieldContains(values: seq<string>, needle: string) {
    exists i :: 0 <= i < |values| && Contains(ToLower(values[i]), needle)
  }

  /** The test `filterBySearch` applies to each item: the term is
      lower-cased but not trimmed. */
  function SearchMatch<T>(term: string, fields: T -> seq<string>): T -> bool {
    x => AnyFieldContains(fields(x), ToLower(term))
  }

  /** `filterBySearch`: a blank term keeps the list as it is; otherwise the
      items that have a listed string field containing the term, ignoring
      case, in their input order. `fields` gives an item's string-valued
      search fields (a field that is not a string never matches). */
  function FilterBySearch<T>(items: seq<T>, term: string, fields: T -> seq<string>): (r: seq<T>)
    ensures IsBlank(term) ==> r == items
    ensures |r| <= |items|
    ensures !IsBlank(term) ==> forall i :: 0 <= i < |r| ==>
              r[i] in items && AnyFieldContains(fields(r[i]), ToLower(term))
    ensures !IsBlank(term) ==> forall i :: 0 <= i < |items| ==>
              (items[i] in r <==> AnyFieldContains(fields(items[i]), ToLower(term)))
  {
    TrimEmptyIffBlank(term);
    if Trim(term) == [] then items else Filter(items, SearchMatch(term, fields))
  }

  /** Search works item by item: on a concatenation it is the concatenation
      of the searches, so the result is an order-preserving subsequence. */
  lemma SearchAppend<T>(a: seq<T>, b: seq<T>, term: string, fields: T -> seq<string>)
    ensures FilterBySearch(a + b, term, fields) == FilterBySearch(a, term, fields) + FilterBySearch(b, term, fields)
  {
    TrimEmptyIffBlank(term);
    if !IsBlank(term) {
      FilterAppend(a, b, SearchMatch(term, fields));
    }
  }

  /** Searching the result of a search again changes nothing. */
  lemma SearchIdempotent<T>(items: seq<T>, term: string, fields: T -> seq<string>)
    ensures FilterBySearch(FilterBySearch(items, term, fields), term, fields) == FilterBySearch(items, term, fields)
  {
    TrimEmptyIffBlank(term);
    if !IsBlank(term) {
      FilterIdempotent(items, SearchMatch(term, fields));
    }
  }

  /** The case of the term does not matter. */
  lemma SearchIgnoresCase<T>(items: seq<T>, term: string, fields: T -> seq<string>)
    ensures FilterBySearch(items, ToLower(term), fields) == FilterBySearch(items, term, fields)
  {
    var lower := ToLower(term);
    assert IsBlank(lower) <==> IsBlank(term) by {
      assert forall i :: 0 <= i < |term| ==> (IsWhitespace(lower[i]) <==> IsWhitespace(term[i]));
    }
    TrimEmptyIffBlank(term);
    TrimEmptyIffBlank(lower);
    ToLowerIdempotent(term);
    FilterAgree(items, SearchMatch(lower, fields), SearchMatch(term, fields));
  }

  // ---------------------------------------------------------------------
  // Date sort

  function Negated<T>(key: T -> int): T -> int {
    x => -key(x)
  }

  /** `sortByDate`: a stable sort of a copy, ascending by `key` or, when
      `ascending` is false, descending (the comparator `b - a` is an ascending
      sort on the negated key). `key` is the record's date as a number; a
      collection without dates passes a constant key. */
  function SortByDate<T>(items: seq<T>, key: T -> int, ascending: bool): (r: seq<T>)
    ensures |r| == |items| && multiset(r) == multiset(items)
    ensures ascending ==> SortedBy(r, key)
    ensures !ascending ==> forall i, j :: 0 <= i < j < |r| ==> key(r[i]) >= key(r[j])
  {
    if ascending then SortByKey(items, key)
    else
      var r := SortByKey(items, Negated(key));
      assert forall i, j :: 0 <= i < j < |r| ==> Negated(key)(r[i]) <= Negated(key)(r[j]);
      r
  }

  /** Stability: the items sharing a date keep their input order, in both
      directions. */
  lemma SortByDateStable<T>(items: seq<T>, key: T -> int, ascending: bool, k: int)
    ensures WithKey(SortByDate(items, key, ascending), key, k) == WithKey(items, key, k)
  {
    if ascending {
      SortByKeyStable(items, key, k);
    } else {
      var r := SortByDate(items, key, ascending);
      var p := (x: T) => key(x) == k;
      SortByKeyStable(items, Negated(key), -k);
      WithKeyIsFilter(r, Negated(key), -k, p);
      WithKeyIsFilter(r, key, k, p);
      WithKeyIsFilter(items, Negated(key), -k, p);
      WithKeyIsFilter(items, key, k, p);
    }
  }

  /** Items that all carry the same date (or none) keep their order. */
  lemma SortByDateConstant<T>(items: seq<T>, key: T -> int, ascending: bool)
    requires forall i, j :: 0 <= i < |items| && 0 <= j < |items| ==> key(items[i]) == key(items[j])
    ensures SortByDate(items, key, ascending) == items
  {
    if ascending {
      SortByKeySorted(items, key);
    } else {
      assert SortedBy(items, Negated(key));
      SortByKeySorted(items, Negated(key));
    }
  }

  // ---------------------------------------------------------------------
  // groupBy

  /** The groups for the keys `ks`, one after another. */
  function Regroup<T, K(==)>(ks: seq<K>, items: seq<T>, key: T -> K): seq<T>
  {
    if ks == [] then []
    else Regroup(ks[..|ks| - 1], items, key) + WithKey(items, key, ks[|ks| - 1])
  }

  /** `groupBy`: `groups` maps each key to its items in input order, and
      `order` lists the keys in the order they were first met (the order in
      which the record's own keys are created). */
  method GroupBy<T, K(==, !new)>(items: seq<T>, key: T -> K) returns (groups: map<K, seq<T>>, order: seq<K>)
    ensures order == Distinct(Map(items, key))
    ensures forall k :: k in groups <==> k in order
    ensures forall k :: k in groups ==> groups[k] == WithKey(items, key, k)
  {
    groups := map[];
    order := [];
    var i := 0;
    while i < |items|
      invariant 0 <= i <= |items|
      invariant GroupedPrefix(groups, order, items[..i], key)
    {
      var item := items[i];
      var k := key(item);
      var group := if k in groups then groups[k] else [];
      GroupStep(groups, order, items, i, key);
      if k !in groups {
        order := order + [k];
      }
      groups := groups[k := group + [item]];
      i := i + 1;
    }
    assert items[..|items|] == items;
    forall k | k in groups ensures groups[k] == WithKey(items, key, k) {
      var j :| 0 <= j < |order| && order[j] == k;
    }
  }

  /** The loop invariant of `GroupBy`: the groups and key order of `s`. */
  ghost predicate GroupedPrefix<T, K(!new)>(groups: map<K, seq<T>>, order: seq<K>, s: seq<T>, key: T -> K) {
    order == Distinct(Map(s, key)) &&
    (forall k :: k in groups <==> k in order) &&
    (forall k :: k in groups ==> groups[k] == WithKey(s, key, k))
  }

  /** One more item joins the group of its key, created on first sight. */
  lemma GroupStep<T, K(!new)>(groups: map<K, seq<T>>, order: seq<K>, items: seq<T>, i: nat, key: T -> K)
    requires i < |items| && GroupedPrefix(groups, order, items[..i], key)
    ensures var k := key(items[i]);
      var group := if k in groups then groups[k] else [];
      GroupedPrefix(groups[k := group + [items[i]]], if k in groups then order else order + [k],
                    items[..i + 1], key)
  {
    var s, x := items[..i], items[i];
    var k := key(x);
    assert items[..i + 1] == s + [x];
    assert Map(s + [x], key) == Map(s, key) + [k];
    DistinctSnoc(Map(s, key), k);
    var group := if k in groups then groups[k] else [];
    assert group == WithKey(s, key, k) by {
      if k !in groups {
        WithKeyAbsent(s, key, k);
      }
    }
    var groups', order' := groups[k := group + [x]], if k in groups then order else order + [k];
    assert order' == Distinct(Map(s + [x], key));
    assert forall k' :: k' in groups' <==> k' in order';
    forall k' | k' in groups' ensures groups'[k'] == WithKey(s + [x], key, k') {
      WithKeySnoc(s, x, key, k');
    }
    assert GroupedPrefix(groups', order', s + [x], key);
  }

  /** A key no item carries has an empty group. */
  lemma WithKeyAbsent<T, K(!new)>(s: seq<T>, key: T -> K, k: K)
    requires k !in Distinct(Map(s, key))
    ensures WithKey(s, key, k) == []
  {
  }

  lemma {:induction false} RegroupNothing<T, K>(ks: seq<K>, key: T -> K)
    ensures Regroup(ks, [], key) == []
  {
    if ks != [] {
      RegroupNothing(ks[..|ks| - 1], key);
    }
  }

  lemma {:induction false} RegroupStep<T, K>(ks: seq<K>, s: seq<T>, x: T, key: T -> K)
    requires NoDuplicates(ks)
    ensures multiset(Regroup(ks, s + [x], key)) ==
            multiset(Regroup(ks, s, key)) + (if key(x) in ks then multiset{x} else multiset{})
  {
    if ks != [] {
      var init, k := ks[..|ks| - 1], ks[|ks| - 1];
      RegroupStep(init, s, x, key);
      assert (s + [x])[..|s|] == s;
      assert key(x) in ks <==> key(x) in init || key(x) == k;
      assert k !in init;
    }
  }

  /** The groups of distinct keys hold exactly the items whose key is among
      them, each once. */
  lemma {:induction false} RegroupPermutes<T, K>(ks: seq<K>, s: seq<T>, key: T -> K)
    requires NoDuplicates(ks)
    ensures multiset(Regroup(ks, s, key)) == multiset(Filter(s, x => key(x) in ks))
  {
    if s == [] {
      RegroupNothing(ks, key);
    } else {
      var init := s[..|s| - 1];
      RegroupPermutes(ks, init, key);
      RegroupStep(ks, init, s[|s| - 1], key);
      assert s == init + [s[|s| - 1]];
    }
  }

  /** Regrouping by keys that pick out exactly the items satisfying `p`
      permutes the items that satisfy `p`. */
  lemma RegroupSelected<T, K>(ks: seq<K>, s: seq<T>, key: T -> K, p: T -> bool)
    requires NoDuplicates(ks)
    requires forall i :: 0 <= i < |s| ==> (key(s[i]) in ks) == p(s[i])
    ensures multiset(Regroup(ks, s, key)) == multiset(Filter(s, p))
  {
    RegroupPermutes(ks, s, key);
    FilterAgree(s, x => key(x) in ks, p);
  }

  /** Every item lands in exactly one group: laid end to end, the groups are
      a permutation of the input, so the group sizes add up to its length. */
  lemma GroupsPartition<T, K(!new)>(items: seq<T>, key: T -> K)
    ensures multiset(Regroup(Distinct(Map(items, key)), items, key)) == multiset(items)
    ensures |Regroup(Distinct(Map(items, key)), items, key)| == |items|
  {
    var ks := Distinct(Map(items, key));
    RegroupPermutes(ks, items, key);
    assert forall i :: 0 <= i < |items| ==> key(items[i]) in ks by {
      forall i | 0 <= i < |items| ensures key(items[i]) in ks {
        assert Map(items, key)[i] == key(items[i]);
      }
    }
    FilterKeepsAll(items, x => key(x) in ks);
    assert |Regroup(ks, items, key)| == |multiset(Regroup(ks, items, key))|;
  }

  // ---------------------------------------------------------------------
  // Text helpers

  /** `truncateText`: text no longer than `maxLength` is kept; longer text is
      cut to `slice(0, maxLength)` and marked with `...`. */
  function TruncateText(text: string, maxLength: int): (r: string)
    ensures |text| <= maxLength ==> r == text
    ensures 0 <= maxLength < |text| ==> r == text[..maxLength] + "..." && |r| == maxLength + 3
    ensures maxLength < 0 ==> r == text[..if |text| + maxLength < 0 then 0 else |text| + maxLength] + "..."
  {
    if |text| <= maxLength then text else JsSlice(text, 0, maxLength) + "..."
  }

  /** Truncating twice to the same non-negative length is truncating once. */
  lemma TruncateIdempotent(text: string, maxLength: nat)
    ensures TruncateText(TruncateText(text, maxLength), maxLength) == TruncateText(text, maxLength)
  {
    if maxLength < |text| {
      var r := TruncateText(text, maxLength);
      assert r[..maxLength] == text[..maxLength];
    }
  }

  /** `word.charAt(0)` of each word, joined: the first character of every
      non-empty word, in order. */
  function FirstLetters(words: seq<string>): (r: string)
    ensures |r| <= |words|
  {
    if words == [] then ""
    else
      var w := words[|words| - 1];
      FirstLetters(words[..|words| - 1]) + (if w == [] then "" else [w[0]])
  }

  /** `generateInitials`: the first letters of the space-separated words,
      upper-cased, at most two of them. */
  function GenerateInitials(name: string): (r: string)
    ensures |r| <= 2
    ensures forall i :: 0 <= i < |r| ==> !('a' <= r[i] <= 'z')
  {
    JsSlice(ToUpper(FirstLetters(Split(name, ' '))), 0, 2)
  }

  /** A first and a last name give their two capitalised first letters. */
  lemma InitialsOfTwoWords(first: string, last: string)
    requires first != [] && last != [] && ' ' !in first && ' ' !in last
    ensures GenerateInitials(first + " " + last) == [UpperChar(first[0]), UpperChar(last[0])]
  {
    var words := [first, last];
    assert words[..1] == [first];
    assert Join(words, ' ') == first + " " + last;
    SplitJoin(words, ' ');
    assert FirstLetters(words[..1]) == [first[0]] by {
      assert [first][..0] == [];
    }
    var letters := [first[0], last[0]];
    assert FirstLetters(words) == letters;
    assert ToUpper(letters) == [UpperChar(first[0]), UpperChar(last[0])];
  }

  // ---------------------------------------------------------------------
  // Colour and category switches

  datatype BmiCategory = BmiCategory(category: string, color: string)

  /** Position of a category in the ordered scale. */
  function BmiRank(c: BmiCategory): nat {
    if c.category == "Underweight" then 0
    else if c.category == "Normal weight" then 1
    else if c.category == "Overweight" then 2
    else 3
  }

  /** `getBMICategory`: the WHO bands, with each bound belonging to the band
      above it. */
  function GetBMICategory(bmi: real): (r: BmiCategory)
    ensures r.category == "Underweight" <==> bmi < 18.5
    ensures r.category == "Normal weight" <==> 18.5 <= bmi < 25.0
    ensures r.category == "Overweight" <==> 25.0 <= bmi < 30.0
    ensures r.category == "Obese" <==> 30.0 <= bmi
  {
    if bmi < 18.5 then BmiCategory("Underweight", "text-blue-600")
    else if bmi < 25.0 then BmiCategory("Normal weight", "text-green-600")
    else if bmi < 30.0 then BmiCategory("Overweight", "text-yellow-600")
    else BmiCategory("Obese", "text-red-600")
  }

  /** A larger BMI never falls in a lower category. */
  lemma BmiMonotone(a: real, b: real)
    requires a <= b
    ensures BmiRank(GetBMICategory(a)) <= BmiRank(GetBMICategory(b))
  {
  }

  const Gray := "text-gray-600 bg-gray-100"

  /** `getRiskLevelColor`: a colour per risk level, gray for anything else,
      ignoring case. */
  function GetRiskLevelColor(riskLevel: string): (r: string)
  {
    var l := ToLower(riskLevel);
    if l == "low" then "text-green-600 bg-green-100"
    else if l == "medium" then "text-yellow-600 bg-yellow-100"
    else if l == "high" then "text-orange-600 bg-orange-100"
    else if l == "critical" then "text-red-600 bg-red-100"
    else Gray
  }

  /** `getStatusColor`: green for active, confirmed and available; yellow
      for pending; red for inactive and cancelled; blue for completed; gray
      for anything else, ignoring case. */
  function GetStatusColor(status: string): (r: string)
  {
    var l := ToLower(status);
    if l == "active" || l == "confirmed" || l == "available" then "text-green-600 bg-green-100"
    else if l == "pending" then "text-yellow-600 bg-yellow-100"
    else if l == "inactive" || l == "cancelled" then "text-red-600 bg-red-100"
    else if l == "completed" then "text-blue-600 bg-blue-100"
    else Gray
  }

  /** `getPriorityColor`: gray for low and for anything unknown. */
  function GetPriorityColor(priority: string): (r: string)
  {
    var l := ToLower(priority);
    if l == "low" then Gray
    else if l == "normal" then "text-blue-600 bg-blue-100"
    else if l == "high" then "text-orange-600 bg-orange-100"
    else if l == "urgent" then "text-red-600 bg-red-100"
    else Gray
  }

  /** The switches compare lower-cased text, so case never matters. */
  lemma ColorsIgnoreCase(s: string)
    ensures GetRiskLevelColor(ToLower(s)) == GetRiskLevelColor(s)
    ensures GetStatusColor(ToLower(s)) == GetStatusColor(s)
    ensures GetPriorityColor(ToLower(s)) == GetPriorityColor(s)
  {
    ToLowerIdempotent(s);
  }

  /** Every risk level has its own colour, none of them gray. */
  lemma RiskLevelColorsDistinct(a: RiskLevel, b: RiskLevel)
    ensures GetRiskLevelColor(a.Name()) != Gray
    ensures a != b ==> GetRiskLevelColor(a.Name()) != GetRiskLevelColor(b.Name())
  {
    ToLowerOfLower(a.Name());
    ToLowerOfLower(b.Name());
  }

  /** Every patient status has a colour other than gray. */
  lemma PatientStatusColors(p: PatientStatus)
    ensures GetStatusColor(p.Name()) != Gray
  {
    ToLowerOfLower(p.Name());
  }

  /** Of the appointment states only `rescheduled` falls through to gray. */
  lemma AppointmentStatusColors(a: AppointmentStatus)
    ensures GetStatusColor(a.Name()) == Gray <==> a == AppointmentStatus.Rescheduled
  {
    ToLowerOfLower(a.Name());
  }

  /** Of the doctor states only `available` has a colour; the rest are gray. */
  lemma DoctorStatusColors(d: DoctorStatus)
    ensures GetStatusColor(d.Name()) == Gray <==> d != DoctorStatus.Available
  {
    ToLowerOfLower(d.Name());
  }

  /** Low priority shares gray with unknown text; the others are distinct. */
  lemma PriorityColors(a: Priority, b: Priority)
    ensures GetPriorityColor(a.Name()) == Gray <==> a == Priority.Low
    ensures a != b ==> GetPriorityColor(a.Name()) != GetPriorityColor(b.Name())
  {
    ToLowerOfLower(a.Name());
    ToLowerOfLower(b.Name());
  }

  // ---------------------------------------------------------------------
  // Relative time

  /** The bucket a difference in seconds falls into: negative, under a
      minute, or a whole number of minutes, hours or days (rounded down). */
  datatype TimeBucket = Negative | UnderMinute | Minutes(n: nat) | Hours(n: nat) | Days(n: nat)

  /** The smallest difference that lands in a bucket of this size. */
  function BucketStart(b: TimeBucket): int {
    match b
    case Negative => -1
    case UnderMinute => 0
    case Minutes(n) => n * 60
    case Hours(n) => n * 3600
    case Days(n) => n * 86400
  }

  function Bucket(diff: int): (b: TimeBucket)
    ensures b.Negative? <==> diff < 0
    ensures b.UnderMinute? <==> 0 <= diff < 60
    ensures b.Minutes? ==> 1 <= b.n < 60 && b.n * 60 <= diff < (b.n + 1) * 60
    ensures b.Hours? ==> 1 <= b.n < 24 && b.n * 3600 <= diff < (b.n + 1) * 3600
    ensures b.Days? ==> 1 <= b.n && b.n * 86400 <= diff < (b.n + 1) * 86400
    ensures b.Minutes? <==> 60 <= diff < 3600
    ensures b.Hours? <==> 3600 <= diff < 86400
  {
    if diff < 0 then Negative
    else if diff < 60 then UnderMinute
    else if diff < 3600 then Minutes(diff / 60)
    else if diff < 86400 then Hours(diff / 3600)
    else Days(diff / 86400)
  }

  /** A later time never lands in an earlier bucket. */
  lemma BucketMonotone(d1: int, d2: int)
    requires d1 <= d2
    ensures BucketStart(Bucket(d1)) <= BucketStart(Bucket(d2))
  {
  }

  /** `n unit`, with an `s` only when `n` is above 1. */
  function Count(n: nat, unit: string): string {
    NatToString(n) + " " + unit + (if n > 1 then "s" else "")
  }

  /** `getTimeUntil` on the seconds until the date. */
  function GetTimeUntil(diff: int): (r: string)
    ensures diff < 0 ==> r == "Overdue"
    ensures 0 <= diff < 60 ==> r == "In less than a minute"
    ensures 60 <= diff < 3600 ==> r == "In " + Count(diff / 60, "minute")
    ensures 3600 <= diff < 86400 ==> r == "In " + Count(diff / 3600, "hour")
    ensures 86400 <= diff ==> r == "In " + Count(diff / 86400, "day")
  {
    match Bucket(diff)
    case Negative => "Overdue"
    case UnderMinute => "In less than a minute"
    case Minutes(n) => "In " + Count(n, "minute")
    case Hours(n) => "In " + Count(n, "hour")
    case Days(n) => "In " + Count(n, "day")
  }

  /** `getRelativeTime` on the seconds since the date; `None` stands for the
      locale date text it shows from thirty days on. */
  function GetRelativeTime(diff: int): (r: Option<string>)
    ensures r.None? <==> diff >= 2592000
    ensures diff < 60 ==> r == Some("Just now")
    ensures 60 <= diff < 3600 ==> r == Some(Count(diff / 60, "minute") + " ago")
    ensures 3600 <= diff < 86400 ==> r == Some(Count(diff / 3600, "hour") + " ago")
    ensures 86400 <= diff < 2592000 ==> r == Some(Count(diff / 86400, "day") + " ago")
  {
    match Bucket(diff)
    case Negative => Some("Just now")
    case UnderMinute => Some("Just now")
    case Minutes(n) => Some(Count(n, "minute") + " ago")
    case Hours(n) => Some(Count(n, "hour") + " ago")
    case Days(n) => if n < 30 then Some(Count(n, "day") + " ago") else None
  }

  /** The count in a time text reads back as the whole number of units. */
  lemma TimeUntilCount(diff: int)
    requires 60 <= diff < 3600
    ensures ParseInt(GetTimeUntil(diff)[3..]) == Int(diff / 60)
    ensures 120 <= diff <==> GetTimeUntil(diff)[|GetTimeUntil(diff)| - 1] == 's'
  {
    var n := diff / 60;
    var r := GetTimeUntil(diff);
    assert r[3..] == NatToString(n) + (" minute" + (if n > 1 then "s" else ""));
    ParseIntOfNatToStringThen(n, " minute" + (if n > 1 then "s" else ""));
  }
}
