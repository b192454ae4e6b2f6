/** The SDK's response-message builder (`resp.MessageBuilder`): a template whose `{...}`
    placeholders are filled from a list of parameters, with an optional prefix and suffix.
    The regular expression `\{.*?\}`, `strings.NewReplacer` and `fmt.Sprint` are written
    out below as the functions `Placeholders`, `Replace` and `Sprint`. */
module Message {
  import opened Wrappers
  import opened StrUtil
  import opened Val

  // ---------------------------------------------------------------------------------
  // fmt.Sprint of one operand (the `%v` rendering)

  /** What `fmt.Sprint(v)` writes: a nil interface is `<nil>`, strings are themselves,
      numbers decimal, slices their elements' renderings between brackets, separated by
      spaces (a `[]byte` shows its byte values). An int64 is written so that it parses back
      to itself, and every slice is written between brackets. */
  function Sprint(v: Any): (r: string)
    ensures v.Int? && MinInt64 <= v.i <= MaxInt64 ==> ParseInt64(r) == Some(v.i)
    ensures v.Bytes? || v.Strs? || v.List? ==> |r| >= 2 && r[0] == '[' && r[|r| - 1] == ']'
    ensures v.Bool? ==> (r == "true" <==> v.v)
    decreases v, 1
  {
    if v.Int? && MinInt64 <= v.i <= MaxInt64 then
      ParseIntToString(v.i);
      IntToString(v.i)
    else
    match v
    case Nil => "<nil>"
    case Str(s) => s
    case Bytes(b) => "[" + Words(seq(|b|, i requires 0 <= i < |b| => NatToString(b[i] as int))) + "]"
    case Int(i) => IntToString(i)
    case Float(f) => FloatText(f)
    case Bool(b) => if b then "true" else "false"
    case Strs(items) => "[" + Words(items) + "]"
    case List(_) => "[" + ListWords(v, 0) + "]"
    case Other(t) => t
  }

  /** Texts separated by single spaces; no text at all for no items. */
  function Words(items: seq<string>): string {
    if items == [] then "" else Join(items, ' ')
  }

  /** The space-separated renderings of `v.elems[i..]`. */
  function ListWords(v: Any, i: nat): string
    requires v.List?
    decreases v, 0, |v.elems| - i
  {
    if i >= |v.elems| then ""
    else if i == |v.elems| - 1 then Sprint(v.elems[i])
    else Sprint(v.elems[i]) + " " + ListWords(v, i + 1)
  }

  /** `%v` of an integral float64 (shortest `%g`): plain decimal below a million in
      magnitude, otherwise one digit, the remaining significant digits after a point,
      and a signed exponent of at least two digits (`1e+06`, `1.5e+07`). */
  function FloatText(f: int): string {
    if -1_000_000 < f < 1_000_000 then IntToString(f)
    else
      var digits := NatToString(if f < 0 then -f else f);
      var mantissa := DropTrailingZeros(digits);
      var exponent := |digits| - 1;
      (if f < 0 then "-" else "")
      + [mantissa[0]] + (if |mantissa| > 1 then "." + mantissa[1..] else "")
      + "e+" + (if exponent < 10 then "0" else "") + NatToString(exponent)
  }

  /** The digits without their trailing zeros, keeping at least the first digit. */
  function DropTrailingZeros(d: string): (r: string)
    requires |d| >= 1
    ensures 1 <= |r| <= |d| && r == d[..|r|]
    decreases |d|
  {
    if |d| > 1 && d[|d| - 1] == '0' then DropTrailingZeros(d[..|d| - 1]) else d
  }

  // ---------------------------------------------------------------------------------
  // The placeholders: the leftmost non-overlapping matches of `\{.*?\}`

  /** A match of `\{.*?\}`: an opening brace, then no closing brace and no line break
      until the closing brace that ends it. */
  predicate IsPlaceholder(p: string) {
    && |p| >= 2 && p[0] == '{' && p[|p| - 1] == '}'
    && forall j :: 1 <= j < |p| - 1 ==> p[j] != '}' && p[j] != '\n'
  }

  /** A placeholder with no further opening brace inside (`{}`, `{name}`). */
  predicate IsFlat(p: string) {
    IsPlaceholder(p) && forall j :: 1 <= j < |p| ==> p[j] != '{'
  }

  /** The position of the first closing brace of `t`, unless a line break comes first
      (`.` does not match a line break). */
  function CloseAt(t: string): (r: Option<nat>)
    ensures r.Some? ==> r.value < |t| && t[r.value] == '}'
    ensures r.Some? ==> forall j :: 0 <= j < r.value ==> t[j] != '}' && t[j] != '\n'
    decreases |t|
  {
    if t == [] then None
    else if t[0] == '}' then Some(0)
    else if t[0] == '\n' then None
    else match CloseAt(t[1..]) {
      case Some(k) => Some(k + 1)
      case None => None
    }
  }

  /** The length of the placeholder that starts `s`, if one does. */
  function MatchAt(s: string): (r: Option<nat>)
    ensures r.Some? ==> r.value <= |s| && IsPlaceholder(s[..r.value])
  {
    if s != [] && s[0] == '{' then
      match CloseAt(s[1..]) {
        case Some(k) => Some(k + 2)
        case None => None
      }
    else None
  }

  /** `re.FindAllString(s, -1)`: scanning left to right, a placeholder that starts at the
      current position is taken whole and the scan goes on after it; otherwise the scan
      moves one character on. */
  function Placeholders(s: string): (r: seq<string>)
    ensures forall i :: 0 <= i < |r| ==> IsPlaceholder(r[i])
    decreases |s|
  {
    if s == [] then []
    else match MatchAt(s) {
      case Some(n) => [s[..n]] + Placeholders(s[n..])
      case None => Placeholders(s[1..])
    }
  }

  lemma CloseAtInner(m: string, t: string)
    requires forall j :: 0 <= j < |m| ==> m[j] != '}' && m[j] != '\n'
    requires t != [] && t[0] == '}'
    ensures CloseAt(m + t) == Some(|m|)
    decreases |m|
  {
    if m == [] {
      assert m + t == t;
    } else {
      assert (m + t)[0] == m[0];
      assert (m + t)[1..] == m[1..] + t;
      CloseAtInner(m[1..], t);
    }
  }

  /** A placeholder at the front is recognised whole, whatever follows it. */
  lemma MatchPlaceholder(p: string, t: string)
    requires IsPlaceholder(p)
    ensures MatchAt(p + t) == Some(|p|)
  {
    var m := p[1..|p| - 1];
    assert (p + t)[1..] == m + ("}" + t);
    CloseAtInner(m, "}" + t);
  }

  /** Text without an opening brace holds no placeholder and adds none. */
  lemma {:induction false} PlaceholdersPlain(u: string, t: string)
    requires '{' !in u
    ensures Placeholders(u + t) == Placeholders(t)
    decreases |u|
  {
    if u != [] {
      assert u[0] in u;
      assert (u + t)[0] == u[0];
      assert MatchAt(u + t) == None;
      assert (u + t)[1..] == u[1..] + t;
      PlaceholdersPlain(u[1..], t);
    } else {
      assert u + t == t;
    }
  }

  /** A placeholder at the front is the first one found. */
  lemma PlaceholdersFront(p: string, t: string)
    requires IsPlaceholder(p)
    ensures Placeholders(p + t) == [p] + Placeholders(t)
  {
    MatchPlaceholder(p, t);
    assert (p + t)[..|p|] == p;
    assert (p + t)[|p|..] == t;
  }

  /** The placeholders of a text are found in the order they stand in it. */
  lemma PlaceholdersInOrder(u: string, p: string, t: string)
    requires '{' !in u && IsPlaceholder(p)
    ensures Placeholders(u + p + t) == [p] + Placeholders(t)
  {
    assert u + p + t == u + (p + t);
    PlaceholdersPlain(u, p + t);
    PlaceholdersFront(p, t);
  }

  lemma NoBraceNoPlaceholder(s: string)
    requires '{' !in s
    ensures Placeholders(s) == []
  {
    assert s + [] == s;
    PlaceholdersPlain(s, []);
  }

  // ---------------------------------------------------------------------------------
  // strings.NewReplacer(old1, new1, old2, new2, ...).Replace

  /** One old/new argument pair of `strings.NewReplacer`. */
  type Pair = (string, string)

  predicate OldsNonEmpty(pairs: seq<Pair>) {
    forall k :: 0 <= k < |pairs| ==> pairs[k].0 != ""
  }

  /** `a` starts `s`. */
  predicate StartsWith(s: string, a: string) {
    |a| <= |s| && s[..|a|] == a
  }

  /** The first pair from position `k` on, in argument order, whose old text starts `s`. */
  function FirstMatch(s: string, pairs: seq<Pair>, k: nat): (r: Option<nat>)
    ensures r.Some? ==> k <= r.value < |pairs| && StartsWith(s, pairs[r.value].0)
    ensures r.Some? ==> forall j :: k <= j < r.value ==> !StartsWith(s, pairs[j].0)
    ensures r.None? ==> forall j :: k <= j < |pairs| ==> !StartsWith(s, pairs[j].0)
    decreases |pairs| - k
  {
    if k >= |pairs| then None
    else if StartsWith(s, pairs[k].0) then Some(k)
    else FirstMatch(s, pairs, k + 1)
  }

  /** `Replace`: left to right, at each position the first pair in argument order whose
      old text starts there is replaced by its new text and the scan resumes after the old
      text; a position where no old text starts is copied. Replaced text is never looked
      at again. */
  function Replace(s: string, pairs: seq<Pair>): string
    requires OldsNonEmpty(pairs)
    decreases |s|
  {
    if s == [] then ""
    else match FirstMatch(s, pairs, 0) {
      case Some(k) => pairs[k].1 + Replace(s[|pairs[k].0|..], pairs)
      case None => [s[0]] + Replace(s[1..], pairs)
    }
  }

  /** A replacer with no pairs leaves the text alone. */
  lemma {:induction false} ReplaceNothing(s: string)
    ensures Replace(s, []) == s
    decreases |s|
  {
    if s != [] {
      ReplaceNothing(s[1..]);
    }
  }

  /** Every old text of the pairs is a placeholder. */
  predicate PlaceholderOlds(pairs: seq<Pair>) {
    forall k :: 0 <= k < |pairs| ==> IsPlaceholder(pairs[k].0)
  }

  /** One character that cannot start a placeholder is copied. */
  lemma ReplaceCopiesChar(c: char, t: string, pairs: seq<Pair>)
    requires PlaceholderOlds(pairs) && c != '{'
    ensures Replace([c] + t, pairs) == [c] + Replace(t, pairs)
  {
    var s := [c] + t;
    assert s[0] == c;
    assert forall k :: 0 <= k < |pairs| ==> !StartsWith(s, pairs[k].0) by {
      forall k | 0 <= k < |pairs|
        ensures !StartsWith(s, pairs[k].0)
      {
        assert pairs[k].0[0] == '{';
      }
    }
    assert s[1..] == t;
  }

  /** Text without an opening brace is copied unchanged by a replacer of placeholders. */
  lemma {:induction false} ReplacePlain(u: string, t: string, pairs: seq<Pair>)
    requires PlaceholderOlds(pairs) && '{' !in u
    ensures Replace(u + t, pairs) == u + Replace(t, pairs)
    decreases |u|
  {
    if u != [] {
      assert u[0] in u;
      assert u + t == [u[0]] + (u[1..] + t);
      ReplaceCopiesChar(u[0], u[1..] + t, pairs);
      ReplacePlain(u[1..], t, pairs);
      assert [u[0]] + (u[1..] + Replace(t, pairs)) == u + Replace(t, pairs);
    } else {
      assert u + t == t;
    }
  }

  /** Where pair `k` is the first whose old text starts the text, its new text is written
      and the scan goes on after the old text. */
  lemma ReplaceHit(t: string, pairs: seq<Pair>, k: nat)
    requires PlaceholderOlds(pairs) && k < |pairs|
    requires FirstMatch(pairs[k].0 + t, pairs, 0) == Some(k)
    ensures Replace(pairs[k].0 + t, pairs) == pairs[k].1 + Replace(t, pairs)
  {
    assert (pairs[k].0 + t)[|pairs[k].0|..] == t;
  }

  /** Two placeholders: one starts the other followed by any text only when they are
      the same placeholder (each holds a single closing brace, at its end). */
  lemma PlaceholderStarts(p: string, q: string, z: string)
    requires IsPlaceholder(p) && IsPlaceholder(q)
    ensures StartsWith(q + z, p) <==> p == q
  {
    if |p| < |q| {
      assert (q + z)[|p| - 1] == q[|p| - 1];
    } else if |p| > |q| {
      if |p| <= |q + z| {
        assert (q + z)[..|p|][|q| - 1] == q[|q| - 1];
      }
    } else {
      assert (q + z)[..|p|] == q;
    }
  }

  // ---------------------------------------------------------------------------------
  // Build

  function Min(a: nat, b: nat): nat {
    if a < b then a else b
  }

  /** The replacement pairs `Build` hands to the replacer: the i-th placeholder with the
      rendering of the i-th parameter, as many as there are of the fewer. */
  function Pairs(placeholders: seq<string>, params: seq<Any>): (r: seq<Pair>)
    ensures |r| == Min(|placeholders|, |params|)
  {
    seq(Min(|placeholders|, |params|), k requires 0 <= k < Min(|placeholders|, |params|) =>
      (placeholders[k], Sprint(params[k])))
  }

  /** The template after `Build`'s replacement, before prefix and suffix. */
  function Substituted(template: string, params: seq<Any>): string {
    var pairs := Pairs(Placeholders(template), params);
    assert PlaceholderOlds(pairs) by {
      forall k | 0 <= k < |pairs|
        ensures IsPlaceholder(pairs[k].0)
      {
        assert pairs[k].0 == Placeholders(template)[k];
      }
    }
    Replace(template, pairs)
  }

  class MessageBuilder {
    var template: string
    var params: seq<Any>
    var prefix: string
    var suffix: string

    /** `NewMessageBuilder`: empty template, no parameters, no prefix or suffix. */
    constructor ()
      ensures template == "" && params == [] && prefix == "" && suffix == ""
    {
      template, params, prefix, suffix := "", [], "", "";
    }

    /** `WithTemplate`: replaces the template and returns the same builder. */
    method WithTemplate(t: string) returns (mb: MessageBuilder)
      modifies this
      ensures mb == this && template == t
      ensures params == old(params) && prefix == old(prefix) && suffix == old(suffix)
    {
      template := t;
      mb := this;
    }

    /** `WithParam`: appends the values after the parameters already given, in order. */
    method WithParam(values: seq<Any>) returns (mb: MessageBuilder)
      modifies this
      ensures mb == this && params == old(params) + values
      ensures template == old(template) && prefix == old(prefix) && suffix == old(suffix)
    {
      params := params + values;
      mb := this;
    }

    /** `WithPrefix`: replaces the prefix. */
    method WithPrefix(p: string) returns (mb: MessageBuilder)
      modifies this
      ensures mb == this && prefix == p
      ensures template == old(template) && params == old(params) && suffix == old(suffix)
    {
      prefix := p;
      mb := this;
    }

    /** `WithSuffix`: replaces the suffix. */
    method WithSuffix(s: string) returns (mb: MessageBuilder)
      modifies this
      ensures mb == this && suffix == s
      ensures template == old(template) && params == old(params) && prefix == old(prefix)
    {
      suffix := s;
      mb := this;
    }

    /** `Build`: the first min(#placeholders, #parameters) placeholders are paired with the
        parameters' renderings, every occurrence of a paired placeholder is replaced, and
        the prefix and suffix are put around the result (an empty one adds nothing). */
    method Build() returns (m: string)
      ensures m == prefix + Substituted(template, params) + suffix
    {
      var message := template;
      var placeholders := Placeholders(message);
      var numToReplace := |placeholders|;
      if |params| < numToReplace {
        numToReplace := |params|;
      }
      var replacements: seq<Pair> := [];
      for i := 0 to numToReplace
        invariant |replacements| == i
        invariant forall k :: 0 <= k < i ==> replacements[k] == (placeholders[k], Sprint(params[k]))
      {
        replacements := replacements + [(placeholders[i], Sprint(params[i]))];
      }
      assert replacements == Pairs(placeholders, params);
      assert PlaceholderOlds(replacements);
      message := Replace(message, replacements);
      if prefix != "" {
        message := prefix + message;
      }
      if suffix != "" {
        message := message + suffix;
      }
      m := message;
    }
  }

  /** `BuildMessage`: a fresh builder with the template and the parameters. */
  method BuildMessage(template: string, params: seq<Any>) returns (m: string)
    ensures m == Substituted(template, params)
  {
    var mb := new MessageBuilder();
    var b1 := mb.WithTemplate(template);
    var b2 := b1.WithParam(params);
    assert b2.prefix == "" && b2.suffix == "" && b2.template == template && b2.params == params;
    m := b2.Build();
    assert m == "" + Substituted(template, params) + "";
  }

  /** `BuildErrorMessage`: the error's text is the one parameter. */
  method BuildErrorMessage(template: string, errText: string) returns (m: string)
    ensures m == Substituted(template, [Str(errText)])
  {
    m := BuildMessage(template, [Str(errText)]);
  }

  // ---------------------------------------------------------------------------------
  // Properties of Build

  /** Without a placeholder, or without a parameter, the template comes back unchanged. */
  lemma NothingToFill(template: string, params: seq<Any>)
    requires Placeholders(template) == [] || params == []
    ensures Substituted(template, params) == template
  {
    assert Pairs(Placeholders(template), params) == [];
    ReplaceNothing(template);
  }

  lemma PairsOne(p: string, params: seq<Any>)
    requires |params| >= 1
    ensures Pairs([p], params) == [(p, Sprint(params[0]))]
  {
  }

  lemma PairsTwo(p: string, q: string, params: seq<Any>)
    requires |params| >= 1
    ensures Pairs([p, q], params) ==
      if |params| >= 2 then [(p, Sprint(params[0])), (q, Sprint(params[1]))] else [(p, Sprint(params[0]))]
  {
  }

  /** The first pair's old text starts any text it begins. */
  lemma FirstPairMatches(w: string, pairs: seq<Pair>)
    requires |pairs| >= 1
    ensures FirstMatch(pairs[0].0 + w, pairs, 0) == Some(0)
  {
    assert (pairs[0].0 + w)[..|pairs[0].0|] == pairs[0].0;
  }

  /** Plain text, then a placeholder pair `k` is the first to match, then the rest. */
  lemma ReplaceAround(u: string, p: string, w: string, pairs: seq<Pair>, k: nat)
    requires PlaceholderOlds(pairs) && '{' !in u && k < |pairs| && pairs[k].0 == p
    requires FirstMatch(p + w, pairs, 0) == Some(k)
    ensures Replace(u + p + w, pairs) == u + pairs[k].1 + Replace(w, pairs)
  {
    assert u + p + w == u + (p + w);
    ReplacePlain(u, p + w, pairs);
    ReplaceHit(w, pairs, k);
  }

  lemma EmptyTail(z: string, pairs: seq<Pair>)
    requires '{' !in z && PlaceholderOlds(pairs)
    ensures Replace(z, pairs) == z
  {
    assert z + [] == z;
    ReplacePlain(z, [], pairs);
  }

  /** One placeholder: it becomes the first parameter's rendering, whatever else is passed. */
  lemma OnePlaceholder(u: string, p: string, w: string, params: seq<Any>)
    requires '{' !in u && '{' !in w && IsPlaceholder(p) && |params| >= 1
    ensures Substituted(u + p + w, params) == u + Sprint(params[0]) + w
  {
    PlaceholdersInOrder(u, p, w);
    NoBraceNoPlaceholder(w);
    assert [p] + [] == [p];
    PairsOne(p, params);
    var pairs := [(p, Sprint(params[0]))];
    FirstPairMatches(w, pairs);
    ReplaceAround(u, p, w, pairs, 0);
    EmptyTail(w, pairs);
  }

  /** The placeholders of a two-placeholder template: in order, both of them. */
  lemma TwoPlaceholdersFound(u: string, p: string, w: string, q: string, z: string)
    requires '{' !in u && '{' !in w && '{' !in z && IsPlaceholder(p) && IsPlaceholder(q)
    ensures Placeholders(u + p + w + q + z) == [p, q]
  {
    assert u + p + w + q + z == u + p + (w + q + z);
    PlaceholdersInOrder(u, p, w + q + z);
    PlaceholdersInOrder(w, q, z);
    NoBraceNoPlaceholder(z);
  }

  /** A flat placeholder no pair matches is copied whole. */
  lemma UnpairedStays(q: string, z: string, pairs: seq<Pair>)
    requires '{' !in z && IsFlat(q) && PlaceholderOlds(pairs)
    requires FirstMatch(q + z, pairs, 0) == None
    ensures Replace(q + z, pairs) == q + z
  {
    var r := q[1..];
    assert '{' !in r by {
      forall j | 0 <= j < |r|
        ensures r[j] != '{'
      {
        assert r[j] == q[j + 1];
      }
    }
    assert (q + z)[1..] == r + z;
    assert Replace(q + z, pairs) == [q[0]] + Replace(r + z, pairs);
    ReplacePlain(r, z, pairs);
    EmptyTail(z, pairs);
    assert [q[0]] + (r + z) == q + z;
  }

  /** The text the second placeholder turns into. */
  function SecondText(p: string, q: string, pairs: seq<Pair>): string
    requires 1 <= |pairs|
  {
    if p == q then pairs[0].1 else if |pairs| >= 2 then pairs[1].1 else q
  }

  /** The second placeholder of a two-placeholder template after the first is filled:
      the first pair's text when it is the same placeholder, otherwise the second pair's
      text when there is one, otherwise it stays. */
  lemma SecondFilled(q: string, z: string, pairs: seq<Pair>)
    requires '{' !in z && IsFlat(q)
    requires 1 <= |pairs| <= 2 && PlaceholderOlds(pairs)
    requires |pairs| == 2 ==> pairs[1].0 == q
    ensures Replace(q + z, pairs) == SecondText(pairs[0].0, q, pairs) + z
  {
    var p := pairs[0].0;
    EmptyTail(z, pairs);
    PlaceholderStarts(p, q, z);
    if p == q {
      FirstPairMatches(z, pairs);
      ReplaceHit(z, pairs, 0);
    } else if |pairs| == 2 {
      PlaceholderStarts(q, q, z);
      assert FirstMatch(q + z, pairs, 0) == Some(1);
      ReplaceHit(z, pairs, 1);
    } else {
      assert FirstMatch(q + z, pairs, 0) == None;
      UnpairedStays(q, z, pairs);
    }
  }

  /** Replacing in a two-placeholder template, pair by pair. */
  lemma ReplaceTwo(u: string, p: string, w: string, q: string, z: string, pairs: seq<Pair>)
    requires '{' !in u && '{' !in w && '{' !in z && IsFlat(p) && IsFlat(q)
    requires 1 <= |pairs| <= 2 && PlaceholderOlds(pairs) && pairs[0].0 == p
    requires |pairs| == 2 ==> pairs[1].0 == q
    ensures Replace(u + p + w + q + z, pairs) == u + pairs[0].1 + w + SecondText(p, q, pairs) + z
  {
    var second := SecondText(p, q, pairs);
    ReplaceFirstOfTwo(u, p, w + q + z, pairs);
    ReplaceAfterFirst(w, q, z, pairs);
    FiveParts(u, p, w, q, z);
    FiveParts(u, pairs[0].1, w, second, z);
  }

  /** The first pair fills a placeholder that follows plain text. */
  lemma ReplaceFirstOfTwo(u: string, p: string, rest: string, pairs: seq<Pair>)
    requires '{' !in u && 1 <= |pairs| && PlaceholderOlds(pairs) && pairs[0].0 == p
    ensures Replace(u + p + rest, pairs) == u + pairs[0].1 + Replace(rest, pairs)
  {
    FirstPairMatches(rest, pairs);
    ReplaceAround(u, p, rest, pairs, 0);
  }

  lemma FiveParts(a: string, b: string, c: string, d: string, e: string)
    ensures a + b + c + d + e == a + b + (c + d + e)
  {
  }

  lemma ReplaceAfterFirst(w: string, q: string, z: string, pairs: seq<Pair>)
    requires '{' !in w && '{' !in z && IsFlat(q)
    requires 1 <= |pairs| <= 2 && PlaceholderOlds(pairs)
    requires |pairs| == 2 ==> pairs[1].0 == q
    ensures Replace(w + q + z, pairs) == w + SecondText(pairs[0].0, q, pairs) + z
  {
    assert w + q + z == w + (q + z);
    ReplacePlain(w, q + z, pairs);
    SecondFilled(q, z, pairs);
  }

  /** Two flat placeholders, as written: the first gets the first parameter; the second
      gets the first parameter too when it is the same placeholder (every occurrence of a
      paired placeholder is replaced), else the second parameter, and with only one
      parameter it stays in the message. */
  lemma TwoPlaceholders(u: string, p: string, w: string, q: string, z: string, params: seq<Any>)
    requires '{' !in u && '{' !in w && '{' !in z && IsFlat(p) && IsFlat(q) && |params| >= 1
    ensures Substituted(u + p + w + q + z, params) ==
      u + Sprint(params[0]) + w
      + (if p == q then Sprint(params[0]) else if |params| >= 2 then Sprint(params[1]) else q)
      + z
  {
    TwoPlaceholdersFound(u, p, w, q, z);
    PairsTwo(p, q, params);
    ReplaceTwo(u, p, w, q, z, Pairs([p, q], params));
  }

  /** The repeated placeholder: `{} and {}` with parameters 1 and 2 reads "1 and 1". */
  lemma RepeatedPlaceholderTakesFirstValue()
    ensures Substituted("{} and {}", [Int(1), Int(2)]) == "1 and 1"
  {
    ExampleShape();
    TwoPlaceholders("", "{}", " and ", "{}", "", [Int(1), Int(2)]);
    ExampleTexts();
  }

  /** The example template, cut at its placeholders. */
  lemma ExampleShape()
    ensures IsFlat("{}") && '{' !in " and " && '{' !in ""
    ensures "{} and {}" == "" + "{}" + " and " + "{}" + ""
  {
  }

  /** The example's two possible readings. */
  lemma ExampleTexts()
    ensures "" + Sprint(Int(1)) + " and " + Sprint(Int(1)) + "" == "1 and 1"
    ensures "" + Sprint(Int(1)) + " and " + Sprint(Int(2)) + "" == "1 and 2"
  {
    assert Sprint(Int(1)) == "1" && Sprint(Int(2)) == "2";
  }

  // ---------------------------------------------------------------------------------
  // Corrected: positional filling

  /** The i-th placeholder found is filled with the i-th parameter's rendering, and
      placeholders beyond the parameters stay; every placeholder is filled by position,
      repeated or not. */
  function Positional(s: string, params: seq<Any>): string
    decreases |s|
  {
    if s == [] then ""
    else match MatchAt(s) {
      case Some(n) =>
        if params == [] then s[..n] + Positional(s[n..], [])
        else Sprint(params[0]) + Positional(s[n..], params[1..])
      case None => [s[0]] + Positional(s[1..], params)
    }
  }

  lemma {:induction false} PositionalPlain(u: string, t: string, params: seq<Any>)
    requires '{' !in u
    ensures Positional(u + t, params) == u + Positional(t, params)
    decreases |u|
  {
    if u != [] {
      assert u[0] in u;
      assert (u + t)[0] == u[0];
      assert MatchAt(u + t) == None;
      assert (u + t)[1..] == u[1..] + t;
      PositionalPlain(u[1..], t, params);
      assert [u[0]] + (u[1..] + Positional(t, params)) == u + Positional(t, params);
    } else {
      assert u + t == t;
    }
  }

  /** Filling places the next parameter at the next placeholder, and keeps a placeholder
      once the parameters have run out. */
  lemma PositionalStep(u: string, p: string, t: string, params: seq<Any>)
    requires '{' !in u && IsPlaceholder(p)
    ensures Positional(u + p + t, params) ==
      u + (if params == [] then p else Sprint(params[0]))
      + Positional(t, if params == [] then [] else params[1..])
  {
    assert u + p + t == u + (p + t);
    PositionalPlain(u, p + t, params);
    MatchPlaceholder(p, t);
    assert (p + t)[..|p|] == p;
    assert (p + t)[|p|..] == t;
  }

  lemma PositionalNoBrace(z: string, params: seq<Any>)
    requires '{' !in z
    ensures Positional(z, params) == z
  {
    assert z + [] == z;
    PositionalPlain(z, [], params);
  }

  /** Positional filling of two placeholders gives each its own parameter, repeated or
      not, and leaves the second in place when only one parameter is given. */
  lemma PositionalFillsInOrder(u: string, p: string, w: string, q: string, z: string, params: seq<Any>)
    requires '{' !in u && '{' !in w && '{' !in z && IsPlaceholder(p) && IsPlaceholder(q)
    requires |params| >= 1
    ensures Positional(u + p + w + q + z, params) ==
      u + Sprint(params[0]) + w + (if |params| >= 2 then Sprint(params[1]) else q) + z
  {
    assert u + p + w + q + z == u + p + (w + q + z);
    PositionalStep(u, p, w + q + z, params);
    PositionalSecond(w, q, z, params[1..]);
  }

  lemma PositionalSecond(w: string, q: string, z: string, rest: seq<Any>)
    requires '{' !in w && '{' !in z && IsPlaceholder(q)
    ensures Positional(w + q + z, rest) == w + (if rest == [] then q else Sprint(rest[0])) + z
  {
    PositionalStep(w, q, z, rest);
    PositionalNoBrace(z, if rest == [] then [] else rest[1..]);
  }

  /** Where no placeholder is repeated the two agree: on two distinct flat placeholders
      positional filling is what `Build` does. */
  lemma PositionalAgreesOnDistinct(u: string, p: string, w: string, q: string, z: string, params: seq<Any>)
    requires '{' !in u && '{' !in w && '{' !in z && IsFlat(p) && IsFlat(q) && p != q
    requires |params| >= 1
    ensures Positional(u + p + w + q + z, params) == Substituted(u + p + w + q + z, params)
  {
    PositionalFillsInOrder(u, p, w, q, z, params);
    TwoPlaceholders(u, p, w, q, z, params);
  }

  /** Placeholders that are all flat and pairwise distinct. */
  predicate DistinctFlat(ps: seq<string>) {
    && (forall i :: 0 <= i < |ps| ==> IsFlat(ps[i]))
    && (forall i, k :: 0 <= i < k < |ps| ==> ps[i] != ps[k])
  }

  /** Midway through a replacement: the pairs from `j` on pair the placeholders `ps` still
      ahead with the parameters `rest` still unused, and no earlier pair's placeholder lies
      ahead. */
  predicate PairedFrom(pairs: seq<Pair>, j: nat, ps: seq<string>, rest: seq<Any>) {
    && j <= |pairs| && |pairs| - j == Min(|ps|, |rest|)
    && (forall k :: 0 <= k < j ==> pairs[k].0 !in ps)
    && (forall i :: 0 <= i < |pairs| - j ==> pairs[j + i] == (ps[i], Sprint(rest[i])))
  }

  /** No pair of placeholders matches where no placeholder starts. */
  lemma NoMatchWithoutPlaceholder(s: string, pairs: seq<Pair>)
    requires PlaceholderOlds(pairs) && MatchAt(s).None?
    ensures FirstMatch(s, pairs, 0).None?
  {
    forall k | 0 <= k < |pairs|
      ensures !StartsWith(s, pairs[k].0)
    {
      if StartsWith(s, pairs[k].0) {
        assert s == pairs[k].0 + s[|pairs[k].0|..];
        MatchPlaceholder(pairs[k].0, s[|pairs[k].0|..]);
      }
    }
  }

  /** The placeholders after the first one of a text that starts with one. */
  lemma PlaceholdersAfterFirst(s: string, n: nat)
    requires MatchAt(s) == Some(n) && DistinctFlat(Placeholders(s))
    ensures Placeholders(s) == [s[..n]] + Placeholders(s[n..])
    ensures DistinctFlat(Placeholders(s[n..]))
    ensures s[..n] !in Placeholders(s[n..])
  {
    var ps, qs := Placeholders(s), Placeholders(s[n..]);
    assert ps == [s[..n]] + qs;
    assert forall i :: 0 <= i < |qs| ==> qs[i] == ps[i + 1];
    assert forall i :: 0 <= i < |qs| ==> qs[i] != ps[0];
  }

  /** Where the scan meets a placeholder no pair matches, the replacer copies it whole. */
  lemma ReplaceSkipsUnpaired(p: string, z: string, pairs: seq<Pair>)
    requires PlaceholderOlds(pairs) && IsFlat(p)
    requires forall k :: 0 <= k < |pairs| ==> pairs[k].0 != p
    ensures Replace(p + z, pairs) == p + Replace(z, pairs)
  {
    forall k | 0 <= k < |pairs|
      ensures !StartsWith(p + z, pairs[k].0)
    {
      PlaceholderStarts(pairs[k].0, p, z);
    }
    var u := p[1..];
    assert '{' !in u by {
      forall i | 0 <= i < |u|
        ensures u[i] != '{'
      {
        assert u[i] == p[i + 1];
      }
    }
    assert (p + z)[1..] == u + z;
    ReplacePlain(u, z, pairs);
    assert [p[0]] + u == p;
  }

  /** Where the scan meets the placeholder of pair `j`, and no earlier pair has it, the
      replacer writes that pair's text. */
  lemma ReplaceFillsPaired(s: string, pairs: seq<Pair>, n: nat, j: nat)
    requires PlaceholderOlds(pairs) && MatchAt(s) == Some(n)
    requires j < |pairs| && pairs[j].0 == s[..n]
    requires forall k :: 0 <= k < j ==> pairs[k].0 != s[..n]
    ensures Replace(s, pairs) == pairs[j].1 + Replace(s[n..], pairs)
  {
    var p, z := s[..n], s[n..];
    assert s == p + z;
    forall k | 0 <= k < j
      ensures !StartsWith(s, pairs[k].0)
    {
      PlaceholderStarts(pairs[k].0, p, z);
    }
    assert StartsWith(s, pairs[j].0);
    assert FirstMatch(s, pairs, 0) == Some(j);
  }

  /** The pairing still holds one placeholder further on. */
  lemma PairedNext(pairs: seq<Pair>, j: nat, p: string, qs: seq<string>, rest: seq<Any>)
    requires PairedFrom(pairs, j, [p] + qs, rest) && rest != [] && p !in qs
    ensures PairedFrom(pairs, j + 1, qs, rest[1..])
  {
    var ps := [p] + qs;
    assert forall i :: 0 <= i < |qs| ==> qs[i] == ps[i + 1];
    forall k | 0 <= k < j + 1
      ensures pairs[k].0 !in qs
    {
      if k == j {
        assert pairs[j] == (ps[0], Sprint(rest[0]));
      } else {
        assert pairs[k].0 !in ps;
      }
    }
    forall i | 0 <= i < |pairs| - (j + 1)
      ensures pairs[j + 1 + i] == (qs[i], Sprint(rest[1..][i]))
    {
      assert pairs[j + (i + 1)] == (ps[i + 1], Sprint(rest[i + 1]));
    }
  }

  /** The induction behind `SubstitutedIsPositional`: from any point of the scan on, the
      replacer and positional filling write the same text. */
  lemma {:induction false} ReplaceIsPositional(s: string, pairs: seq<Pair>, j: nat, rest: seq<Any>)
    requires PlaceholderOlds(pairs) && DistinctFlat(Placeholders(s))
    requires PairedFrom(pairs, j, Placeholders(s), rest)
    ensures Replace(s, pairs) == Positional(s, rest)
    decreases |s|
  {
    if s != [] {
      match MatchAt(s) {
        case None =>
          NoMatchWithoutPlaceholder(s, pairs);
          ReplaceIsPositional(s[1..], pairs, j, rest);
        case Some(n) =>
          PlaceholdersAfterFirst(s, n);
          var p, qs := s[..n], Placeholders(s[n..]);
          assert Placeholders(s)[0] == p;
          if rest == [] {
            assert s == p + s[n..];
            ReplaceSkipsUnpaired(p, s[n..], pairs);
            ReplaceIsPositional(s[n..], pairs, j, rest);
          } else {
            assert pairs[j] == (p, Sprint(rest[0]));
            ReplaceFillsPaired(s, pairs, n, j);
            PairedNext(pairs, j, p, qs, rest);
            ReplaceIsPositional(s[n..], pairs, j + 1, rest[1..]);
          }
      }
    }
  }

  /** Where the placeholders are flat and no two are the same, `Build` fills the i-th
      placeholder with the i-th parameter, for templates of any length: its replacement is
      positional filling. */
  lemma SubstitutedIsPositional(template: string, params: seq<Any>)
    requires DistinctFlat(Placeholders(template))
    ensures Substituted(template, params) == Positional(template, params)
  {
    var pairs := Pairs(Placeholders(template), params);
    assert PlaceholderOlds(pairs) by {
      forall k | 0 <= k < |pairs|
        ensures IsPlaceholder(pairs[k].0)
      {
        assert pairs[k].0 == Placeholders(template)[k];
      }
    }
    ReplaceIsPositional(template, pairs, 0, params);
  }

  /** The corrected filling of `{} and {}` with 1 and 2 reads "1 and 2". */
  lemma PositionalRepeated()
    ensures Positional("{} and {}", [Int(1), Int(2)]) == "1 and 2"
  {
    ExampleShape();
    PositionalFillsInOrder("", "{}", " and ", "{}", "", [Int(1), Int(2)]);
    ExampleTexts();
  }

  /** With no parameters positional filling leaves the text alone. */
  lemma {:induction false} PositionalNothing(s: string)
    ensures Positional(s, []) == s
    decreases |s|
  {
    if s != [] {
      match MatchAt(s) {
        case Some(n) =>
          PositionalNothing(s[n..]);
          assert s[..n] + s[n..] == s;
        case None =>
          PositionalNothing(s[1..]);
          assert [s[0]] + s[1..] == s;
      }
    }
  }
}
