/** The date placeholders of the components' logger (`convertDateFormat`): strftime-style
    `%X` codes in a log file name turned into Go layout tokens. */
module Logging {

  const AllCodes: set<char> := {'Y', 'y', 'm', 'd', 'H', 'I', 'M', 'S', 'p', 'Z'}

  /** The placeholder letters. */
  predicate IsCode(c: char) {
    c in AllCodes
  }

  /** The Go layout token a placeholder letter stands for ("" for any other letter). */
  function Token(c: char): string {
    match c
    case 'Y' => "2006"
    case 'y' => "06"
    case 'm' => "01"
    case 'd' => "02"
    case 'H' => "15"
    case 'I' => "03"
    case 'M' => "04"
    case 'S' => "05"
    case 'p' => "PM"
    case 'Z' => "MST"
    case _ => ""
  }

  /** No token holds a '%'. */
  lemma TokenPlain(c: char)
    ensures '%' !in Token(c)
  {
  }

  /** `[x] + (v[1..] + r)` is `v + r` when `x` is the head of `v`. */
  lemma Regroup(v: string, r: string)
    requires v != []
    ensures [v[0]] + (v[1..] + r) == v + r
  {
    assert v == [v[0]] + v[1..];
  }

  // ---------------------------------------------------------------------------------
  // `strings.Replace` and the loop as written

  /** `strings.Replace(s, "%c", token, -1)`: every occurrence of the two-character pattern,
      found left to right without overlap, replaced by `token`. */
  function ReplaceAll(s: string, c: char, token: string): string
    decreases |s|
  {
    if |s| < 2 then s
    else if s[0] == '%' && s[1] == c then token + ReplaceAll(s[2..], c, token)
    else [s[0]] + ReplaceAll(s[1..], c, token)
  }

  /** A character other than '%' is copied ahead of the replacement of the rest. */
  lemma CharFirst(x: char, t: string, c: char, token: string)
    requires x != '%'
    ensures ReplaceAll([x] + t, c, token) == [x] + ReplaceAll(t, c, token)
  {
    if t == [] {
      assert [x] + t == [x];
    } else {
      assert ([x] + t)[1..] == t;
    }
  }

  /** Text without a '%' passes a replacement unchanged and unscanned. */
  lemma {:induction false} ReplaceAfterPlain(v: string, t: string, c: char, token: string)
    requires '%' !in v
    ensures ReplaceAll(v + t, c, token) == v + ReplaceAll(t, c, token)
    decreases |v|
  {
    if v == [] {
      assert v + t == t;
    } else {
      assert v + t == [v[0]] + (v[1..] + t);
      CharFirst(v[0], v[1..] + t, c, token);
      ReplaceAfterPlain(v[1..], t, c, token);
      Regroup(v, ReplaceAll(t, c, token));
    }
  }

  /** Text without a '%' holds no pattern to replace. */
  lemma ReplacePlain(s: string, c: char, token: string)
    requires '%' !in s
    ensures ReplaceAll(s, c, token) == s
  {
    ReplaceAfterPlain(s, [], c, token);
    assert s + [] == s;
  }

  /** A '%' before another letter than the pattern's is copied with that letter. */
  lemma PairKept(x: char, t: string, c: char, token: string)
    requires x != '%' && x != c
    ensures ReplaceAll(['%', x] + t, c, token) == ['%', x] + ReplaceAll(t, c, token)
  {
    assert (['%', x] + t)[1..] == [x] + t;
    CharFirst(x, t, c, token);
  }

  /** The pattern itself becomes the token. */
  lemma PairReplaced(t: string, c: char, token: string)
    ensures ReplaceAll(['%', c] + t, c, token) == token + ReplaceAll(t, c, token)
  {
    assert (['%', c] + t)[2..] == t;
  }

  /** One replacement after another, in the order the map iteration happens to produce. */
  function ApplyInOrder(s: string, order: seq<char>): string
    decreases |order|
  {
    if order == [] then s
    else ApplyInOrder(ReplaceAll(s, order[0], Token(order[0])), order[1..])
  }

  /** The orders a range over the ten-entry map can produce: ten letters, each a
      placeholder letter and none twice (so every letter once, by `OrderCoversCodes`). */
  predicate IsIterationOrder(order: seq<char>) {
    |order| == 10 && AllAreCodes(order) && NoRepeats(order)
  }

  predicate AllAreCodes(order: seq<char>) {
    forall i :: 0 <= i < |order| ==> IsCode(order[i])
  }

  predicate NoRepeats(order: seq<char>) {
    forall i, j :: 0 <= i < j < |order| ==> order[i] != order[j]
  }

  /** `convertDateFormat` as written: the ten replacements run one after another over the
      result so far, in the map's iteration order `order`. */
  method ConvertDateFormatAsWritten(format: string, order: seq<char>) returns (result: string)
    requires IsIterationOrder(order)
    ensures result == ApplyInOrder(format, order)
  {
    result := format;
    for i := 0 to |order|
      invariant ApplyInOrder(format, order) == ApplyInOrder(result, order[i..])
    {
      assert order[i..][1..] == order[i + 1..];
      result := ReplaceAll(result, order[i], Token(order[i]));
    }
  }

  // ---------------------------------------------------------------------------------
  // The single pass

  /** The placeholders of `letters` replaced in one left-to-right pass over the original
      text; everything else copied. */
  function ReplaceIn(s: string, letters: set<char>): string
    decreases |s|
  {
    if |s| < 2 then s
    else if s[0] == '%' && s[1] in letters then Token(s[1]) + ReplaceIn(s[2..], letters)
    else [s[0]] + ReplaceIn(s[1..], letters)
  }

  /** `convertDateFormat` as intended: every placeholder of the format replaced once, in a
      single pass, so that no order is involved; a format without '%' is kept as it is. */
  function ConvertDateFormat(format: string): (r: string)
    ensures '%' !in format ==> r == format
  {
    if '%' !in format then
      NoPercentUnchanged(format, AllCodes);
      ReplaceIn(format, AllCodes)
    else ReplaceIn(format, AllCodes)
  }

  /** A character other than '%' is copied ahead of the conversion of the rest. */
  lemma CharFirstIn(x: char, t: string, letters: set<char>)
    requires x != '%'
    ensures ReplaceIn([x] + t, letters) == [x] + ReplaceIn(t, letters)
  {
    if t == [] {
      assert [x] + t == [x];
    } else {
      assert ([x] + t)[1..] == t;
    }
  }

  /** A prefix without '%' is copied ahead of the conversion of the rest. */
  lemma {:induction false} PlainPrefix(v: string, t: string, letters: set<char>)
    requires '%' !in v
    ensures ReplaceIn(v + t, letters) == v + ReplaceIn(t, letters)
    decreases |v|
  {
    if v == [] {
      assert v + t == t;
    } else {
      assert v + t == [v[0]] + (v[1..] + t);
      CharFirstIn(v[0], v[1..] + t, letters);
      PlainPrefix(v[1..], t, letters);
      Regroup(v, ReplaceIn(t, letters));
    }
  }

  /** Text without a '%' converts to itself. */
  lemma NoPercentUnchanged(s: string, letters: set<char>)
    requires '%' !in s
    ensures ReplaceIn(s, letters) == s
  {
    PlainPrefix(s, [], letters);
    assert s + [] == s;
  }

  /** A placeholder whose letter is converted becomes its token ahead of the rest. */
  lemma PlaceholderFirst(c: char, t: string, letters: set<char>)
    requires c in letters
    ensures ReplaceIn(['%', c] + t, letters) == Token(c) + ReplaceIn(t, letters)
  {
    assert (['%', c] + t)[2..] == t;
  }

  /** A '%' before a letter that is not converted is copied with it. */
  lemma PairCopied(s: string, letters: set<char>)
    requires |s| >= 2 && s[0] == '%' && s[1] != '%' && s[1] !in letters
    ensures ReplaceIn(s, letters) == ['%', s[1]] + ReplaceIn(s[2..], letters)
  {
    assert s[1..] == [s[1]] + s[2..];
    CharFirstIn(s[1], s[2..], letters);
  }

  /** Converting with no letters copies the text. */
  lemma {:induction false} EmptyLettersCopy(s: string)
    ensures ReplaceIn(s, {}) == s
    decreases |s|
  {
    if |s| >= 2 {
      EmptyLettersCopy(s[1..]);
      assert s == [s[0]] + s[1..];
    }
  }

  // ---------------------------------------------------------------------------------
  // Without "%%" every order gives the single pass

  /** Whether a '%' stands right before another '%'. */
  predicate HasDoublePercent(s: string) {
    exists i :: 0 <= i < |s| - 1 && s[i] == '%' && s[i + 1] == '%'
  }

  /** A suffix of a text without "%%" has none either. */
  lemma NoDoubleInSuffix(s: string, n: nat)
    requires n <= |s| && !HasDoublePercent(s)
    ensures !HasDoublePercent(s[n..])
  {
    var rest := s[n..];
    forall i | 0 <= i < |rest| - 1 ensures !(rest[i] == '%' && rest[i + 1] == '%') {
      assert rest[i] == s[i + n] && rest[i + 1] == s[i + n + 1];
    }
  }

  /** Replacing one more letter over the partly converted text is converting with that
      letter too, as long as the original has no "%%". */
  lemma {:induction false} ReplaceStep(s: string, letters: set<char>, c: char)
    requires IsCode(c) && c !in letters && !HasDoublePercent(s)
    ensures ReplaceAll(ReplaceIn(s, letters), c, Token(c)) == ReplaceIn(s, letters + {c})
    decreases |s|
  {
    if |s| >= 2 {
      var more := letters + {c};
      if s[0] == '%' {
        assert s[1] != '%';
        NoDoubleInSuffix(s, 2);
        ReplaceStep(s[2..], letters, c);
        var t := ReplaceIn(s[2..], letters);
        if s[1] in letters {
          TokenPlain(s[1]);
          ReplaceAfterPlain(Token(s[1]), t, c, Token(c));
        } else if s[1] == c {
          PairCopied(s, letters);
          PairReplaced(t, c, Token(c));
        } else {
          PairCopied(s, letters);
          PairCopied(s, more);
          PairKept(s[1], t, c, Token(c));
        }
      } else {
        NoDoubleInSuffix(s, 1);
        ReplaceStep(s[1..], letters, c);
        CharFirst(s[0], ReplaceIn(s[1..], letters), c, Token(c));
      }
    }
  }

  /** The letters of an order, as a set. */
  function Letters(order: seq<char>): set<char> {
    set c | c in order
  }

  lemma LettersCons(order: seq<char>)
    requires order != []
    ensures Letters(order) == {order[0]} + Letters(order[1..])
  {
    assert order == [order[0]] + order[1..];
  }

  /** Running the rest of the order over the partly converted text finishes the
      conversion. */
  lemma {:induction false} ApplyRest(s: string, order: seq<char>, done: set<char>)
    requires AllAreCodes(order) && NoRepeats(order)
    requires forall i :: 0 <= i < |order| ==> order[i] !in done
    requires !HasDoublePercent(s)
    ensures ApplyInOrder(ReplaceIn(s, done), order) == ReplaceIn(s, done + Letters(order))
    decreases |order|
  {
    if order == [] {
      assert done + Letters(order) == done;
    } else {
      var c := order[0];
      var tail := order[1..];
      ReplaceStep(s, done, c);
      forall i | 0 <= i < |tail| ensures tail[i] !in done + {c} {
        assert tail[i] == order[i + 1];
      }
      ApplyRest(s, tail, done + {c});
      LettersCons(order);
      assert (done + {c}) + Letters(tail) == done + Letters(order);
    }
  }

  /** The letters of a sequence without repeats are as many as its entries. */
  lemma {:induction false} DistinctLetters(order: seq<char>)
    requires NoRepeats(order)
    ensures |Letters(order)| == |order|
    decreases |order|
  {
    if order != [] {
      var tail := order[1..];
      DistinctLetters(tail);
      LettersCons(order);
      forall k | 0 <= k < |tail| ensures tail[k] != order[0] {
        assert tail[k] == order[k + 1];
      }
      assert order[0] !in Letters(tail);
    }
  }

  /** The ten placeholder letters. */
  lemma CodesCount()
    ensures |AllCodes| == 10
  {
  }

  /** A subset as large as its superset is the superset. */
  lemma SameSizeSubset(a: set<char>, b: set<char>)
    requires a <= b && |a| == |b|
    ensures a == b
  {
    assert a + b == b && a * b == a;
    assert |a - b| == 0;
  }

  /** An iteration order holds every placeholder letter. */
  lemma OrderCoversCodes(order: seq<char>)
    requires IsIterationOrder(order)
    ensures Letters(order) == AllCodes
  {
    DistinctLetters(order);
    CodesCount();
    assert Letters(order) <= AllCodes by {
      forall x | x in Letters(order) ensures x in AllCodes {
        var k :| 0 <= k < |order| && order[k] == x;
      }
    }
    SameSizeSubset(Letters(order), AllCodes);
  }

  /** Whatever the iteration order, the format converts to the single-pass result as long
      as it has no "%%". */
  lemma AnyOrderAgrees(s: string, order: seq<char>)
    requires IsIterationOrder(order) && !HasDoublePercent(s)
    ensures ApplyInOrder(s, order) == ConvertDateFormat(s)
  {
    EmptyLettersCopy(s);
    ApplyRest(s, order, {});
    OrderCoversCodes(order);
    assert {} + Letters(order) == AllCodes;
  }

  // ---------------------------------------------------------------------------------
  // With "%%" the order matters

  /** The replacement at position `k` of the remaining order. */
  lemma ApplyAt(s: string, order: seq<char>, k: nat)
    requires k < |order|
    ensures ApplyInOrder(s, order[k..]) == ApplyInOrder(ReplaceAll(s, order[k], Token(order[k])), order[k + 1..])
  {
    assert order[k..][1..] == order[k + 1..];
  }

  /** Replacements that leave the text alone can be skipped. */
  lemma {:induction false} SkipFixed(s: string, order: seq<char>, lo: nat, hi: nat)
    requires lo <= hi <= |order|
    requires forall k :: lo <= k < hi ==> ReplaceAll(s, order[k], Token(order[k])) == s
    ensures ApplyInOrder(s, order[lo..]) == ApplyInOrder(s, order[hi..])
    decreases hi - lo
  {
    if lo < hi {
      ApplyAt(s, order, lo);
      SkipFixed(s, order, lo + 1, hi);
    }
  }

  /** Text without a '%' passes any sequence of replacements. */
  lemma ApplyNoPercent(s: string, order: seq<char>)
    requires '%' !in s
    ensures ApplyInOrder(s, order) == s
  {
    forall k | 0 <= k < |order| ensures ReplaceAll(s, order[k], Token(order[k])) == s {
      ReplacePlain(s, order[k], Token(order[k]));
    }
    SkipFixed(s, order, 0, |order|);
    assert order[0..] == order && order[|order|..] == [];
  }

  /** A replacement of another placeholder letter than 'Z' leaves "%%Z" alone. */
  lemma PercentZKept(c: char)
    requires c != 'Z' && c != '%'
    ensures ReplaceAll("%%Z", c, Token(c)) == "%%Z"
  {
    assert "%%Z" == ['%'] + "%Z";
    assert "%Z" == ['%', 'Z'] + [];
    PairKept('Z', [], c, Token(c));
  }

  /** "%Z" turns "%%Z" into "%MST". */
  lemma PercentZReplaced(c: char)
    requires c == 'Z'
    ensures ReplaceAll("%%Z", c, Token(c)) == "%MST"
  {
    assert "%%Z"[1..] == ['%', 'Z'] + [];
    PairReplaced([], 'Z', "MST");
  }

  /** A replacement of another letter than 'M' leaves "%MST" alone. */
  lemma PercentMKept(c: char)
    requires c != 'M'
    ensures ReplaceAll("%MST", c, Token(c)) == "%MST"
  {
    assert "%MST" == ['%', 'M'] + "ST";
    ReplacePlain("ST", c, Token(c));
    PairKept('M', "ST", c, Token(c));
  }

  /** "%M" turns "%MST" into "04ST". */
  lemma PercentMReplaced(c: char)
    requires c == 'M'
    ensures ReplaceAll("%MST", c, Token(c)) == "04ST"
  {
    assert "%MST" == ['%', 'M'] + "ST";
    ReplacePlain("ST", 'M', "04");
    PairReplaced("ST", 'M', "04");
  }

  /** The replacements before "%Z" leave "%%Z" alone. */
  lemma ZKeptBefore(order: seq<char>, i: nat)
    requires AllAreCodes(order) && NoRepeats(order) && i < |order| && order[i] == 'Z'
    ensures forall k :: 0 <= k < i ==> ReplaceAll("%%Z", order[k], Token(order[k])) == "%%Z"
  {
    forall k | 0 <= k < i ensures ReplaceAll("%%Z", order[k], Token(order[k])) == "%%Z" {
      assert IsCode(order[k]);
      PercentZKept(order[k]);
    }
  }

  /** Replacements of letters other than 'M' leave "%MST" alone. */
  lemma MKeptBetween(order: seq<char>, lo: nat, hi: nat)
    requires lo <= hi <= |order| && forall k :: lo <= k < hi ==> order[k] != 'M'
    ensures forall k :: lo <= k < hi ==> ReplaceAll("%MST", order[k], Token(order[k])) == "%MST"
  {
    forall k | lo <= k < hi ensures ReplaceAll("%MST", order[k], Token(order[k])) == "%MST" {
      PercentMKept(order[k]);
    }
  }

  /** Replacements that leave `s` alone up to position `i`, where `s` becomes `t`. */
  lemma UpTo(s: string, t: string, order: seq<char>, lo: nat, i: nat)
    requires lo <= i < |order|
    requires forall k :: lo <= k < i ==> ReplaceAll(s, order[k], Token(order[k])) == s
    requires ReplaceAll(s, order[i], Token(order[i])) == t
    ensures ApplyInOrder(s, order[lo..]) == ApplyInOrder(t, order[i + 1..])
  {
    SkipFixed(s, order, lo, i);
    ApplyAt(s, order, i);
  }

  /** With "%Z" visited before "%M", "%%Z" becomes "04ST": the '%' left over meets the
      "M" of "MST", and the later "%M" turns the pair into "04". */
  lemma ZBeforeM(order: seq<char>, i: nat, j: nat)
    requires IsIterationOrder(order)
    requires i < j < |order| && order[i] == 'Z' && order[j] == 'M'
    ensures ApplyInOrder("%%Z", order) == "04ST"
  {
    ZKeptBefore(order, i);
    PercentZReplaced(order[i]);
    UpTo("%%Z", "%MST", order, 0, i);
    MKeptBetween(order, i + 1, j);
    PercentMReplaced(order[j]);
    UpTo("%MST", "04ST", order, i + 1, j);
    FinalKept(order[j + 1..]);
    assert order[0..] == order;
  }

  /** "04ST" has no '%' left for any later replacement. */
  lemma FinalKept(rest: seq<char>)
    ensures ApplyInOrder("04ST", rest) == "04ST"
  {
    assert forall k :: 0 <= k < |"04ST"| ==> "04ST"[k] != '%';
    ApplyNoPercent("04ST", rest);
  }

  /** With "%M" visited before "%Z", "%%Z" becomes "%MST", as the single pass has it. */
  lemma MBeforeZ(order: seq<char>, i: nat, j: nat)
    requires IsIterationOrder(order)
    requires j < i < |order| && order[i] == 'Z' && order[j] == 'M'
    ensures ApplyInOrder("%%Z", order) == "%MST"
  {
    ZKeptBefore(order, i);
    PercentZReplaced(order[i]);
    UpTo("%%Z", "%MST", order, 0, i);
    MSTKept(order, i + 1);
    assert order[0..] == order;
  }

  /** "%MST" passes the replacements of an order's tail that holds no 'M'. */
  lemma MSTKept(order: seq<char>, lo: nat)
    requires lo <= |order| && forall k :: lo <= k < |order| ==> order[k] != 'M'
    ensures ApplyInOrder("%MST", order[lo..]) == "%MST"
  {
    MKeptBetween(order, lo, |order|);
    SkipFixed("%MST", order, lo, |order|);
    assert order[|order|..] == [];
  }

  /** The single pass converts "%%Z" to "%MST". */
  lemma SinglePassPercentZ()
    ensures ConvertDateFormat("%%Z") == "%MST"
  {
    assert "%%Z"[1..] == ['%', 'Z'] + [];
    assert '%' !in AllCodes;
    PlaceholderFirst('Z', [], AllCodes);
  }

  /** The order "%Z" first, then "%M". */
  const ZFirst: seq<char> := ['Z', 'M', 'Y', 'y', 'm', 'd', 'H', 'I', 'S', 'p']
  /** The order "%M" first, "%Z" last. */
  const MFirst: seq<char> := ['M', 'Y', 'y', 'm', 'd', 'H', 'I', 'S', 'p', 'Z']

  lemma ZFirstPossible()
    ensures IsIterationOrder(ZFirst)
  {
  }

  lemma MFirstPossible()
    ensures IsIterationOrder(MFirst)
  {
  }

  /** Two orders a range over the map can produce disagree on "%%Z", so the result of
      the loop depends on the map's iteration order. */
  lemma OrderDependent()
    ensures exists o1, o2 ::
      IsIterationOrder(o1) && IsIterationOrder(o2)
      && ApplyInOrder("%%Z", o1) == "04ST" && ApplyInOrder("%%Z", o2) == "%MST"
  {
    ZFirstPossible();
    MFirstPossible();
    ZBeforeM(ZFirst, 0, 1);
    MBeforeZ(MFirst, 9, 0);
  }

  // ---------------------------------------------------------------------------------
  // Formats the logger meets

  /** A daily file name ("%Y%m%d" between plain text) converts to the Go layout
      "20060102"; the default file-name format "APP-%Y%m%d.log" is one of them. */
  lemma DailyFileName(prefix: string, suffix: string)
    requires '%' !in prefix && '%' !in suffix
    ensures ConvertDateFormat(prefix + "%Y%m%d" + suffix) == prefix + "20060102" + suffix
  {
    var k := AllCodes;
    var d := ['%', 'd'] + suffix;
    var md := ['%', 'm'] + d;
    var ymd := ['%', 'Y'] + md;
    NoPercentUnchanged(suffix, k);
    PlaceholderFirst('d', suffix, k);
    PlaceholderFirst('m', d, k);
    PlaceholderFirst('Y', md, k);
    assert ReplaceIn(ymd, k) == "2006" + ("01" + ("02" + suffix));
    DailyShape(prefix, suffix);
    PlainPrefix(prefix, ymd, k);
  }

  /** The shapes of the daily file name, spelled out. */
  lemma DailyShape(prefix: string, suffix: string)
    ensures prefix + "%Y%m%d" + suffix == prefix + (['%', 'Y'] + (['%', 'm'] + (['%', 'd'] + suffix)))
    ensures prefix + "20060102" + suffix == prefix + ("2006" + ("01" + ("02" + suffix)))
  {
  }

  /** A format of plain text and placeholders only (every '%' starts one) converts to text
      without any '%' left. */
  lemma {:induction false} PlaceholdersAllReplaced(s: string)
    requires forall i :: 0 <= i < |s| && s[i] == '%' ==> i + 1 < |s| && IsCode(s[i + 1])
    ensures '%' !in ReplaceIn(s, AllCodes)
    decreases |s|
  {
    if |s| >= 2 {
      var n := if s[0] == '%' then 2 else 1;
      var rest := s[n..];
      forall i | 0 <= i < |rest| && rest[i] == '%' ensures i + 1 < |rest| && IsCode(rest[i + 1]) {
        assert s[i + n] == '%';
      }
      PlaceholdersAllReplaced(rest);
      if n == 2 {
        TokenPlain(s[1]);
      }
    } else if |s| == 1 {
      assert s[0] != '%';
    }
  }
}
