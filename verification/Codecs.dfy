/** The contract that `Journal` asks of its serializer can be met: a small
    encoding with the one property of JSON objects that matters, an opening
    brace first, a closing brace last, and none in between. */
module Codecs {
  import opened Wrappers
  import opened Text
  import opened Journal

  /** No brace, no newline. */
  predicate IsPlain(c: char) {
    c != '{' && c != '}' && c != NEWLINE
  }

  ghost predicate AllPlain(s: string) {
    forall c | c in s :: IsPlain(c)
  }

  /** A text as the numbers of its characters, each closed by a comma. */
  function Quoted(s: string): string {
    if s == "" then "" else Decimal(s[0] as int) + "," + Quoted(s[1..])
  }

  function QuotedOption(s: Option<string>): string {
    if s.None? then "" else "+" + Quoted(s.value)
  }

  /** Fields closed by semicolons. */
  function Joined(fields: seq<string>): string {
    if fields == [] then "" else fields[0] + ";" + Joined(fields[1..])
  }

  function Fields(m: Marker): seq<string> {
    [Decimal(m.sequence), Quoted(m.eventType), Quoted(m.taskId), QuotedOption(m.agentId),
     QuotedOption(m.payload), Decimal(m.createdAt)]
  }

  function Encode(m: Marker): string {
    "{" + Joined(Fields(m)) + "}"
  }

  // ---- It loses nothing ----------------------------------------------------

  /** A text up to its first separator is determined. */
  lemma FirstOf(sep: char, x: string, y: string, x': string, y': string)
    requires sep !in x && sep !in x' && x + [sep] + y == x' + [sep] + y'
    ensures x == x' && y == y'
  {
    var s, s' := x + [sep] + y, x' + [sep] + y';
    assert forall k | 0 <= k < |x| :: s[k] == x[k];
    assert forall k | 0 <= k < |x'| :: s'[k] == x'[k];
    assert s[|x|] == sep && s'[|x'|] == sep;
    assert s[..|x|] == x && s'[..|x'|] == x';
    assert s[|x| + 1..] == y && s'[|x'| + 1..] == y';
  }

  /** Without `sep` and plain. */
  ghost predicate Field(s: string) {
    AllPlain(s) && ';' !in s
  }

  lemma DecimalIsField(n: nat)
    ensures Field(Decimal(n)) && ',' !in Decimal(n)
  {
    DecimalRoundTrip(n);
  }

  lemma {:induction false} QuotedIsField(s: string)
    ensures Field(Quoted(s)) && '+' !in Quoted(s)
  {
    if s != "" {
      DecimalRoundTrip(s[0] as int);
      QuotedIsField(s[1..]);
    }
  }

  lemma {:induction false} QuotedInjective(s: string, t: string)
    requires Quoted(s) == Quoted(t)
    ensures s == t
  {
    if s != "" && t != "" {
      DecimalIsField(s[0] as int);
      DecimalIsField(t[0] as int);
      FirstOf(',', Decimal(s[0] as int), Quoted(s[1..]), Decimal(t[0] as int), Quoted(t[1..]));
      DecimalInjective(s[0] as int, t[0] as int);
      QuotedInjective(s[1..], t[1..]);
      assert s == [s[0]] + s[1..] && t == [t[0]] + t[1..];
    } else {
      QuotedNonempty(s);
      QuotedNonempty(t);
    }
  }

  lemma QuotedNonempty(s: string)
    ensures Quoted(s) == "" <==> s == ""
  {
  }

  lemma OptionInjective(s: Option<string>, t: Option<string>)
    requires QuotedOption(s) == QuotedOption(t)
    ensures s == t
  {
    if s.Some? && t.Some? {
      assert QuotedOption(s)[1..] == Quoted(s.value) && QuotedOption(t)[1..] == Quoted(t.value);
      QuotedInjective(s.value, t.value);
    }
  }

  ghost predicate AllFields(fields: seq<string>) {
    forall i | 0 <= i < |fields| :: Field(fields[i])
  }

  lemma {:induction false} JoinedInjective(x: seq<string>, y: seq<string>)
    requires |x| == |y| && AllFields(x) && AllFields(y) && Joined(x) == Joined(y)
    ensures x == y
  {
    if x != [] {
      assert Field(x[0]) && Field(y[0]);
      FirstOf(';', x[0], Joined(x[1..]), y[0], Joined(y[1..]));
      JoinedInjective(x[1..], y[1..]);
      assert x == [x[0]] + x[1..] && y == [y[0]] + y[1..];
    }
  }

  lemma {:induction false} JoinedIsPlain(fields: seq<string>)
    requires AllFields(fields)
    ensures AllPlain(Joined(fields))
  {
    if fields != [] {
      assert Field(fields[0]);
      JoinedIsPlain(fields[1..]);
    }
  }

  lemma FieldsAreFields(m: Marker)
    ensures AllFields(Fields(m))
  {
    DecimalIsField(m.sequence);
    DecimalIsField(m.createdAt);
    QuotedIsField(m.eventType);
    QuotedIsField(m.taskId);
    if m.agentId.Some? {
      QuotedIsField(m.agentId.value);
    }
    if m.payload.Some? {
      QuotedIsField(m.payload.value);
    }
  }

  lemma EncodeInjective(m: Marker, n: Marker)
    requires Encode(m) == Encode(n)
    ensures m == n
  {
    hide Joined, Quoted, Decimal, QuotedOption;
    var x, y := Fields(m), Fields(n);
    assert Encode(m)[1..|Encode(m)| - 1] == Joined(x) && Encode(n)[1..|Encode(n)| - 1] == Joined(y);
    FieldsAreFields(m);
    FieldsAreFields(n);
    JoinedInjective(x, y);
    assert x[0] == y[0] && x[1] == y[1] && x[2] == y[2] && x[3] == y[3] && x[4] == y[4] && x[5] == y[5];
    DecimalInjective(m.sequence, n.sequence);
    DecimalInjective(m.createdAt, n.createdAt);
    QuotedInjective(m.eventType, n.eventType);
    QuotedInjective(m.taskId, n.taskId);
    OptionInjective(m.agentId, n.agentId);
    OptionInjective(m.payload, n.payload);
  }

  // ---- Braces --------------------------------------------------------------

  /** The braces of an encoding are its ends. */
  lemma Braces(m: Marker)
    ensures var s := Encode(m);
            && |s| >= 2 && s[0] == '{' && s[|s| - 1] == '}' && NEWLINE !in s
            && forall k | 0 < k < |s| - 1 :: IsPlain(s[k])
  {
    hide Joined;
    FieldsAreFields(m);
    JoinedIsPlain(Fields(m));
    var s, body := Encode(m), Joined(Fields(m));
    assert forall k | 0 < k < |s| - 1 :: s[k] == body[k - 1] && body[k - 1] in body;
  }

  ghost function Decode(s: string): Option<Marker> {
    if m :| Encode(m) == s then Some(m) else None
  }

  ghost function SomeCodec(): Codec {
    Codec(m => Encode(m), s => Decode(s))
  }

  /** The contract is consistent. */
  lemma CodecExists()
    ensures CodecOk(SomeCodec())
  {
    hide Encode;
    var c := SomeCodec();
    forall m
      ensures c.encode(m) != "" && NEWLINE !in c.encode(m) && c.decode(c.encode(m)) == Some(m)
    {
      Braces(m);
      DecodesBack(m);
    }
    forall m, n | 0 < n < |c.encode(m)|
      ensures c.decode(c.encode(m)[..n]) == None
    {
      PartDoesNotDecode(m, n);
    }
    forall ps | |ps| >= 2 && Pieces(c, ps)
      ensures c.decode(Concat(ps)) == None
    {
      SeveralDoNotDecode(ps);
    }
  }

  lemma DecodesBack(m: Marker)
    ensures Decode(Encode(m)) == Some(m)
  {
    hide Encode;
    var n := Decode(Encode(m)).value;
    assert Encode(n) == Encode(m);
    EncodeInjective(n, m);
  }

  lemma PartDoesNotDecode(m: Marker, n: nat)
    requires 0 < n < |Encode(m)|
    ensures Decode(Encode(m)[..n]) == None
  {
    hide Encode;
    Braces(m);
    var part := Encode(m)[..n];
    forall k: Marker
      ensures Encode(k) != part
    {
      Braces(k);
      assert part[|part| - 1] == Encode(m)[n - 1];
    }
  }

  lemma SeveralDoNotDecode(ps: seq<string>)
    requires |ps| >= 2 && Pieces(SomeCodec(), ps)
    ensures Decode(Concat(ps)) == None
  {
    hide Encode;
    var c := SomeCodec();
    var x, y := ps[0], ps[1];
    assert x in ps && y in ps;
    PieceOpens(x);
    PieceOpens(y);
    var s := Concat(ps);
    var rest := ps[1..];
    assert rest[0] == y;
    assert Concat(rest) == y + Concat(rest[1..]);
    assert s == x + Concat(rest);
    assert s[|x|] == Concat(rest)[0] == '{';
    forall k: Marker
      ensures Encode(k) != s
    {
      Braces(k);
    }
  }

  lemma PieceOpens(p: string)
    requires Piece(SomeCodec(), p)
    ensures p != "" && p[0] == '{'
  {
    hide Encode;
    var m, n :| 0 < n <= |SomeCodec().encode(m)| && p == SomeCodec().encode(m)[..n];
    Braces(m);
  }
}
