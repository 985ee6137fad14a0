/**
 * `GLVertexArrayWidget.bind` of ipywebgl/glvertexarray.py: the host turns buffer
 * definitions such as `(buffer, "3f32 3f32", "in_vertex", "in_normal")` into the
 * 'bind' message for the browser. Every whitespace-separated token of the layout
 * string that contains one of the eight type names yields one attribute
 * `{type, count, attrib}`; the count is what is left of the token once the type name
 * is removed, read as an integer, and the attribute name is the token's matching
 * entry after the layout string.
 */
module HostVertexArray {

  import opened Wrappers
  import opened Json

  /** The exceptions `bind` can raise: `int()` on a bad count, or a missing attribute name. */
  datatype PyError = ValueError(text: string) | IndexError

  /** One entry of `buffer_definitions`: the buffer's uid, the layout string, the attribute names. */
  datatype BufferDefinition = BufferDefinition(buffer: int, layout: string, names: seq<Json>)

  /** The type names tried against each token, in this order. */
  const TypeNames: seq<string> := ["i8", "i16", "i32", "u8", "u16", "u32", "f16", "f32"]

  // ---------------------------------------------------------------------------
  // The string operations of Python that `bind` uses.

  /** Python's `str.isspace` for one character. */
  predicate IsSpace(c: char)
  {
    var n := c as int;
    9 <= n <= 13 || 28 <= n <= 32 || n == 0x85 || n == 0xA0 || n == 0x1680 || 0x2000 <= n <= 0x200A ||
    n == 0x2028 || n == 0x2029 || n == 0x202F || n == 0x205F || n == 0x3000
  }

  predicate NoSpace(w: string)
  {
    forall i | 0 <= i < |w| :: !IsSpace(w[i])
  }

  /** The word `s` starts with: its longest prefix without whitespace. */
  function Word(s: string): (w: string)
    ensures |w| <= |s| && w == s[..|w|] && NoSpace(w)
    ensures |w| == |s| || IsSpace(s[|w|])
  {
    if s == [] || IsSpace(s[0]) then [] else [s[0]] + Word(s[1..])
  }

  /** `s.split()`: the maximal runs of non-whitespace characters, in order. */
  function Words(s: string): (r: seq<string>)
    ensures forall i | 0 <= i < |r| :: r[i] != [] && NoSpace(r[i])
    decreases |s|
  {
    if s == [] then []
    else if IsSpace(s[0]) then Words(s[1..])
    else
      var w := Word(s);
      [w] + Words(s[|w|..])
  }

  /** The words separated by single spaces. */
  function Join(ws: seq<string>): string
  {
    if |ws| == 0 then [] else if |ws| == 1 then ws[0] else ws[0] + " " + Join(ws[1..])
  }

  /** Python's `sub in s`. */
  function Contains(s: string, sub: string): bool
  {
    |sub| <= |s| && (s[..|sub|] == sub || Contains(s[1..], sub))
  }

  /** `s.replace(pattern, '')`: every occurrence removed, scanning left to right. */
  function RemoveAll(s: string, pattern: string): (r: string)
    requires pattern != []
    ensures |r| <= |s|
  {
    if |s| < |pattern| then s
    else if s[..|pattern|] == pattern then RemoveAll(s[|pattern|..], pattern)
    else [s[0]] + RemoveAll(s[1..], pattern)
  }

  predicate IsDigit(c: char)
  {
    '0' <= c <= '9'
  }

  predicate AllDigits(s: string)
  {
    forall i | 0 <= i < |s| :: IsDigit(s[i])
  }

  /** The value of a string of decimal digits. */
  function DigitsValue(s: string): nat
    requires AllDigits(s)
  {
    if s == [] then 0 else DigitsValue(s[..|s| - 1]) * 10 + (s[|s| - 1] as int - '0' as int)
  }

  /**
   * The digits of a numeral in which single underscores may separate digits, as
   * `int()` reads it: at least one digit, no leading, trailing or doubled underscore.
   * None for anything else.
   */
  function Numeral(s: string): (r: Option<string>)
    ensures r.Some? ==> r.value != [] && AllDigits(r.value)
    ensures s != [] && AllDigits(s) ==> r == Some(s)
  {
    if s == [] || !IsDigit(s[0]) then None
    else if |s| == 1 then Some(s)
    else
      var rest := Numeral(if s[1] == '_' then s[2..] else s[1..]);
      assert [s[0]] + s[1..] == s;
      if rest.None? then None else Some([s[0]] + rest.value)
  }

  /** `int(s)`: an optional sign followed by a numeral; anything else raises. */
  function ParseInt(s: string): Option<int>
  {
    if s != [] && (s[0] == '-' || s[0] == '+') then
      var digits := Numeral(s[1..]);
      if digits.Some? then
        var v: int := DigitsValue(digits.value);
        Some(if s[0] == '-' then -v else v)
      else None
    else
      var digits := Numeral(s);
      if digits.Some? then Some(DigitsValue(digits.value)) else None
  }

  /** `str(n)` for a natural number. */
  function NatString(n: nat): (r: string)
    ensures r != [] && AllDigits(r)
  {
    var d := ['0' + (n % 10) as char];
    if n < 10 then d else NatString(n / 10) + d
  }

  // ---------------------------------------------------------------------------
  // What `bind` computes.

  /** One attribute record `{'type': ..., 'count': ..., 'attrib': ...}`. */
  function Attribute(typeName: string, count: int, name: Json): Json
  {
    JObj(map["type" := JStr(typeName), "count" := JNum(count as real), "attrib" := name])
  }

  /** `prefix` followed by what `rest` holds; an exception in `rest` propagates. */
  function Then(prefix: seq<Json>, rest: Result<seq<Json>, PyError>): Result<seq<Json>, PyError>
  {
    match rest
    case Success(more) => Success(prefix + more)
    case Failure(e) => Failure(e)
  }

  /**
   * The attributes that token number `index` of a layout contributes, trying the type
   * names from position k on. The count is evaluated before the name is looked up.
   */
  function TokenAttributes(token: string, index: nat, names: seq<Json>, k: nat): Result<seq<Json>, PyError>
    requires k <= |TypeNames|
    decreases |TypeNames| - k
  {
    if k == |TypeNames| then Success([])
    else
      var t := TypeNames[k];
      if !Contains(token, t) then TokenAttributes(token, index, names, k + 1)
      else
        var count := ParseInt(RemoveAll(token, t));
        if count.None? then Failure(ValueError(RemoveAll(token, t)))
        else if index >= |names| then Failure(IndexError)
        else Then([Attribute(t, count.value, names[index])], TokenAttributes(token, index, names, k + 1))
  }

  /** The attributes of the tokens from position j on. */
  function LayoutAttributes(tokens: seq<string>, names: seq<Json>, j: nat): Result<seq<Json>, PyError>
    requires j <= |tokens|
    decreases |tokens| - j
  {
    if j == |tokens| then Success([])
    else
      match TokenAttributes(tokens[j], j, names, 0)
      case Failure(e) => Failure(e)
      case Success(attrs) => Then(attrs, LayoutAttributes(tokens, names, j + 1))
  }

  /** The `{'buffer': ..., 'attributes': ...}` records of the definitions from position i on. */
  function BufferEntries(defs: seq<BufferDefinition>, i: nat): Result<seq<Json>, PyError>
    requires i <= |defs|
    decreases |defs| - i
  {
    if i == |defs| then Success([])
    else
      var d := defs[i];
      match LayoutAttributes(Words(d.layout), d.names, 0)
      case Failure(e) => Failure(e)
      case Success(attrs) =>
        Then([JObj(map["buffer" := JNum(d.buffer as real), "attributes" := JArr(attrs)])], BufferEntries(defs, i + 1))
  }

  /** The message `bind` sends, or the exception it raises before sending. */
  function BindMessage(program: int, defs: seq<BufferDefinition>): Result<Json, PyError>
  {
    match BufferEntries(defs, 0)
    case Failure(e) => Failure(e)
    case Success(entries) =>
      Success(JObj(map["type" := JStr("bind"), "program" := JNum(program as real), "buffers" := JArr(entries)]))
  }

  lemma ThenAssociative(a: seq<Json>, b: seq<Json>, rest: Result<seq<Json>, PyError>)
    ensures Then(a, Then(b, rest)) == Then(a + b, rest)
  {
    if rest.Success? {
      assert a + (b + rest.value) == (a + b) + rest.value;
    }
  }

  lemma ThenNothing(rest: Result<seq<Json>, PyError>)
    ensures Then([], rest) == rest
  {
    if rest.Success? {
      assert [] + rest.value == rest.value;
    }
  }

  /**
   * The innermost loop of `bind`: the type names tried against one token, the
   * attributes found appended to `attributes`.
   */
  method AppendTokenAttributes(attributes: seq<Json>, token: string, index: nat, names: seq<Json>)
    returns (r: Result<seq<Json>, PyError>)
    ensures r == Then(attributes, TokenAttributes(token, index, names, 0))
  {
    var found: seq<Json> := attributes;
    var k := 0;
    ThenNothing(TokenAttributes(token, index, names, 0));
    assert found[|attributes|..] == [];
    while k < |TypeNames|
      invariant 0 <= k <= |TypeNames| && |attributes| <= |found|
      invariant found[..|attributes|] == attributes
      invariant TokenAttributes(token, index, names, 0) == Then(found[|attributes|..], TokenAttributes(token, index, names, k))
    {
      var t := TypeNames[k];
      if Contains(token, t) {
        var count := ParseInt(RemoveAll(token, t));
        if count.None? {
          return Failure(ValueError(RemoveAll(token, t)));
        }
        if index >= |names| {
          return Failure(IndexError);
        }
        var a := Attribute(t, count.value, names[index]);
        ThenAssociative(found[|attributes|..], [a], TokenAttributes(token, index, names, k + 1));
        ghost var prev := found;
        found := found + [a];
        assert found[|attributes|..] == prev[|attributes|..] + [a];
      }
      k := k + 1;
    }
    ThenNothing(TokenAttributes(token, index, names, 0));
    ThenAssociative(attributes, found[|attributes|..], Success([]));
    assert attributes + found[|attributes|..] + [] == found;
    r := Success(found);
  }

  /** The middle loop of `bind`: the attributes of every token of one layout string. */
  method LayoutLoop(tokens: seq<string>, names: seq<Json>) returns (r: Result<seq<Json>, PyError>)
    ensures r == LayoutAttributes(tokens, names, 0)
  {
    var attributes: seq<Json> := [];
    var j := 0;
    ThenNothing(LayoutAttributes(tokens, names, 0));
    while j < |tokens|
      invariant 0 <= j <= |tokens|
      invariant LayoutAttributes(tokens, names, 0) == Then(attributes, LayoutAttributes(tokens, names, j))
    {
      var found := AppendTokenAttributes(attributes, tokens[j], j, names);
      if found.Failure? {
        return Failure(found.error);
      }
      ThenAssociative(attributes, found.value[|attributes|..], LayoutAttributes(tokens, names, j + 1));
      attributes := found.value;
      j := j + 1;
    }
    assert attributes + [] == attributes;
    r := Success(attributes);
  }

  /**
   * `bind(program, buffer_definitions)` with `program` standing for the program's
   * uid: the loop over the definitions, building the message as it goes.
   */
  method Bind(program: int, defs: seq<BufferDefinition>) returns (r: Result<Json, PyError>)
    ensures r == BindMessage(program, defs)
  {
    var buffers: seq<Json> := [];
    var i := 0;
    ThenNothing(BufferEntries(defs, 0));
    while i < |defs|
      invariant 0 <= i <= |defs|
      invariant BufferEntries(defs, 0) == Then(buffers, BufferEntries(defs, i))
    {
      var d := defs[i];
      var attributes := LayoutLoop(Words(d.layout), d.names);
      if attributes.Failure? {
        return Failure(attributes.error);
      }
      var entry := JObj(map["buffer" := JNum(d.buffer as real), "attributes" := JArr(attributes.value)]);
      ThenAssociative(buffers, [entry], BufferEntries(defs, i + 1));
      buffers := buffers + [entry];
      i := i + 1;
    }
    assert buffers + [] == buffers;
    r := Success(JObj(map["type" := JStr("bind"), "program" := JNum(program as real), "buffers" := JArr(buffers)]));
  }
}

module HostVertexArrayProperties {

  import opened Wrappers
  import opened Json
  import opened HostVertexArray

  /** Splitting words joined by single spaces gives the words back. */
  lemma {:induction false} WordsOfJoin(ws: seq<string>)
    requires forall i | 0 <= i < |ws| :: ws[i] != [] && NoSpace(ws[i])
    ensures Words(Join(ws)) == ws
  {
    if |ws| == 1 {
      WordsOfWord(ws[0], []);
      assert ws[0] + [] == ws[0];
    } else if |ws| > 1 {
      var rest := Join(ws[1..]);
      assert Join(ws) == ws[0] + (" " + rest);
      WordsOfWord(ws[0], " " + rest);
      assert (" " + rest)[1..] == rest;
      WordsOfJoin(ws[1..]);
      assert ws == [ws[0]] + ws[1..];
    }
  }

  /** A word followed by nothing or by whitespace is split off whole. */
  lemma WordsOfWord(w: string, tail: string)
    requires w != [] && NoSpace(w)
    requires tail == [] || IsSpace(tail[0])
    ensures Words(w + tail) == [w] + Words(tail)
  {
    WordOfWord(w, tail);
    assert (w + tail)[|w|..] == tail;
  }

  /** A word followed by nothing or by whitespace is read back whole. */
  lemma {:induction false} WordOfWord(w: string, tail: string)
    requires w != [] && NoSpace(w)
    requires tail == [] || IsSpace(tail[0])
    ensures Word(w + tail) == w
  {
    if |w| > 1 {
      assert (w + tail)[1..] == w[1..] + tail;
      WordOfWord(w[1..], tail);
    } else {
      assert (w + tail)[1..] == tail;
    }
  }

  /** `int(str(n)) == n`. */
  lemma {:induction false} ParseNatString(n: nat)
    ensures ParseInt(NatString(n)) == Some(n)
  {
    DigitsOfNatString(n);
  }

  /** An underscore between two digit runs does not change the numeral. */
  lemma {:induction false} UnderscoreSeparates(a: string, b: string)
    requires a != [] && b != [] && AllDigits(a) && AllDigits(b)
    ensures Numeral(a + "_" + b) == Some(a + b)
    decreases |a|
  {
    if |a| == 1 {
      assert (a + "_" + b)[1] == '_' && (a + "_" + b)[2..] == b;
      assert [a[0]] + b == a + b;
    } else {
      assert (a + "_" + b)[1..] == a[1..] + "_" + b;
      UnderscoreSeparates(a[1..], b);
      assert [a[0]] + (a[1..] + b) == a + b;
    }
  }

  /** `int(a + "_" + b) == int(a + b)` for digit runs a and b. */
  lemma UnderscoreIsIgnored(a: string, b: string)
    requires a != [] && b != [] && AllDigits(a) && AllDigits(b)
    ensures ParseInt(a + "_" + b) == Some(DigitsValue(a + b))
  {
    UnderscoreSeparates(a, b);
    assert (a + "_" + b)[0] == a[0];
  }

  lemma {:induction false} DigitsOfNatString(n: nat)
    ensures DigitsValue(NatString(n)) == n
  {
    var s := NatString(n);
    if n >= 10 {
      DigitsOfNatString(n / 10);
      assert s[..|s| - 1] == NatString(n / 10);
    }
  }

  /** An occurrence of a pattern that starts with a non-digit cannot start among leading digits. */
  lemma {:induction false} ContainsPastDigits(d: string, t: string, p: string)
    requires AllDigits(d) && p != [] && !IsDigit(p[0])
    ensures Contains(d + t, p) == Contains(t, p)
  {
    if d != [] {
      assert (d + t)[0] == d[0];
      assert (d + t)[1..] == d[1..] + t;
      ContainsPastDigits(d[1..], t, p);
      if |p| <= |d + t| {
        assert (d + t)[..|p|][0] != p[0];
      }
    } else {
      assert d + t == t;
    }
  }

  /** Removing a pattern that starts with a non-digit from `digits + pattern` leaves the digits. */
  lemma {:induction false} RemovePastDigits(d: string, t: string)
    requires AllDigits(d) && t != [] && !IsDigit(t[0])
    ensures RemoveAll(d + t, t) == d
  {
    if d == [] {
      assert d + t == t;
      assert t[|t|..] == [];
    } else {
      assert (d + t)[..|t|][0] == d[0];
      assert (d + t)[1..] == d[1..] + t;
      RemovePastDigits(d[1..], t);
      assert [d[0]] + d[1..] == d;
    }
  }

  /** No type name occurs inside another. */
  lemma TypeNamesContain(t: nat, u: nat)
    requires t < |TypeNames| && u < |TypeNames|
    ensures Contains(TypeNames[t], TypeNames[u]) <==> t == u
  {
    var s := TypeNames[t];
    var p := TypeNames[u];
    if |s| == |p| {
      assert Contains(s, p) <==> s == p;
    } else if |s| > |p| {
      assert p[1] == '8' && s[1] != '8' && s[2] != '8';
      assert s[..2][1] != p[1] && s[1..][1] != p[1];
      assert Contains(s, p) <==> s[..2] == p || s[1..] == p;
    } else {
      assert !Contains(s, p);
    }
  }

  /** Every type name starts with a letter and holds no whitespace. */
  lemma TypeNameShape(t: nat)
    requires t < |TypeNames|
    ensures TypeNames[t] != [] && !IsDigit(TypeNames[t][0]) && NoSpace(TypeNames[t])
  {
  }

  /** The token `<count><type>`. */
  function Token(count: nat, t: nat): string
    requires t < |TypeNames|
  {
    NatString(count) + TypeNames[t]
  }

  /**
   * A token `<count><type>` at position `index` yields exactly one attribute of that
   * type and count, named by the index-th name, or raises IndexError when the names
   * run out.
   */
  lemma {:induction false} WellFormedToken(count: nat, t: nat, index: nat, names: seq<Json>, k: nat)
    requires t < |TypeNames| && k <= |TypeNames|
    ensures TokenAttributes(Token(count, t), index, names, k) ==
      if k > t then Success([])
      else if index < |names| then Success([Attribute(TypeNames[t], count, names[index])])
      else Failure(IndexError)
    decreases |TypeNames| - k
  {
    if k < |TypeNames| {
      WellFormedToken(count, t, index, names, k + 1);
      TypeNameShape(k);
      ContainsPastDigits(NatString(count), TypeNames[t], TypeNames[k]);
      TypeNamesContain(t, k);
      if k == t {
        TypeNameShape(t);
        RemovePastDigits(NatString(count), TypeNames[t]);
        ParseNatString(count);
        if index < |names| {
          var a := Attribute(TypeNames[t], count, names[index]);
          assert [a] + [] == [a];
        }
      }
    }
  }

  /** A token that contains no type name is skipped: it yields nothing and raises nothing. */
  lemma {:induction false} TokenWithoutTypeIsSkipped(token: string, index: nat, names: seq<Json>, k: nat)
    requires k <= |TypeNames|
    requires forall u | 0 <= u < |TypeNames| :: !Contains(token, TypeNames[u])
    ensures TokenAttributes(token, index, names, k) == Success([])
    decreases |TypeNames| - k
  {
    if k < |TypeNames| {
      TokenWithoutTypeIsSkipped(token, index, names, k + 1);
    }
  }

  /** One `<count><type>` token of a layout string. */
  datatype AttributeSpec = AttributeSpec(count: nat, typeIndex: nat)

  predicate ValidSpecs(specs: seq<AttributeSpec>)
  {
    forall i | 0 <= i < |specs| :: specs[i].typeIndex < |TypeNames|
  }

  /** The tokens of a layout, one per spec. */
  function Tokens(specs: seq<AttributeSpec>): (r: seq<string>)
    requires ValidSpecs(specs)
    ensures |r| == |specs|
  {
    seq(|specs|, i requires 0 <= i < |specs| => Token(specs[i].count, specs[i].typeIndex))
  }

  /** The attributes a layout should yield with the given names. */
  function Expected(specs: seq<AttributeSpec>, names: seq<Json>): (r: seq<Json>)
    requires ValidSpecs(specs) && |specs| <= |names|
    ensures |r| == |specs|
  {
    seq(|specs|, i requires 0 <= i < |specs| => Attribute(TypeNames[specs[i].typeIndex], specs[i].count, names[i]))
  }

  lemma {:induction false} LayoutFrom(specs: seq<AttributeSpec>, names: seq<Json>, j: nat)
    requires ValidSpecs(specs) && |specs| <= |names| && j <= |specs|
    ensures LayoutAttributes(Tokens(specs), names, j) == Success(Expected(specs, names)[j..])
    decreases |specs| - j
  {
    if j < |specs| {
      LayoutFrom(specs, names, j + 1);
      WellFormedToken(specs[j].count, specs[j].typeIndex, j, names, 0);
      assert Expected(specs, names)[j..] == [Expected(specs, names)[j]] + Expected(specs, names)[j + 1..];
    }
  }

  /**
   * A layout string like "3f32 3f32" with at least as many names as tokens yields one
   * attribute per token, in order: its type, its count, and the name in its position.
   */
  lemma LayoutOfWellFormedTokens(specs: seq<AttributeSpec>, names: seq<Json>)
    requires ValidSpecs(specs) && |specs| <= |names|
    ensures LayoutAttributes(Words(Join(Tokens(specs))), names, 0) == Success(Expected(specs, names))
  {
    TokensAreWords(specs);
    LayoutFrom(specs, names, 0);
  }

  /** The tokens of a layout survive being joined and split again. */
  lemma TokensAreWords(specs: seq<AttributeSpec>)
    requires ValidSpecs(specs)
    ensures Words(Join(Tokens(specs))) == Tokens(specs)
  {
    var tokens := Tokens(specs);
    forall i | 0 <= i < |tokens|
      ensures tokens[i] != [] && NoSpace(tokens[i])
    {
      TypeNameShape(specs[i].typeIndex);
      var d := NatString(specs[i].count);
      assert forall c | 0 <= c < |d| :: !IsSpace(d[c]) by {
        forall c | 0 <= c < |d| ensures !IsSpace(d[c]) {
          assert IsDigit(d[c]);
        }
      }
    }
    WordsOfJoin(tokens);
  }

  /** A layout with more tokens than names raises IndexError instead of sending anything. */
  lemma TooFewNamesRaise(program: int, buffer: int, specs: seq<AttributeSpec>, names: seq<Json>)
    requires ValidSpecs(specs) && |specs| > |names|
    ensures BindMessage(program, [BufferDefinition(buffer, Join(Tokens(specs)), names)]) == Failure(IndexError)
  {
    TokensAreWords(specs);
    MissingNameFrom(specs, names, 0);
  }

  lemma {:induction false} MissingNameFrom(specs: seq<AttributeSpec>, names: seq<Json>, j: nat)
    requires ValidSpecs(specs) && |specs| > |names| && j <= |names|
    ensures LayoutAttributes(Tokens(specs), names, j) == Failure(IndexError)
    decreases |names| - j
  {
    WellFormedToken(specs[j].count, specs[j].typeIndex, j, names, 0);
    if j < |names| {
      MissingNameFrom(specs, names, j + 1);
    }
  }
}
