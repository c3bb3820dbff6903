/** A codec that meets what the run log asks of one, so that its results are not about nothing. */
module RunLogCodec {
  import opened Basics
  import opened RunLog

  /** A number as that many marks. */
  function Unary(n: nat): Bytes {
    seq(n, _ => 'i')
  }

  /** Numbers one after another, each closed by a semicolon. */
  function Coded(numbers: seq<nat>): Bytes {
    if numbers == [] then "" else Unary(numbers[0]) + ";" + Coded(numbers[1..])
  }

  /** The sequence number and the characters of the body, as numbers. */
  function NumbersOf(e: RunEvent): (numbers: seq<nat>)
    ensures |numbers| == |e.body| + 1
  {
    [if e.sequence < 0 then -e.sequence else e.sequence]
    + seq(|e.body|, i requires 0 <= i < |e.body| => e.body[i] as int)
  }

  function Encoded(e: RunEvent): Bytes {
    (if e.sequence < 0 then "{-" else "{+") + Coded(NumbersOf(e))
  }

  ghost function Parsed(line: Bytes): Result<Option<RunEvent>> {
    if exists e :: Encoded(e) == line then
      var e :| Encoded(e) == line;
      Accept(Some(e))
    else Reject
  }

  ghost function SampleCodec(): Codec {
    Codec(Encoded, Parsed)
  }

  /** A code starts with as many marks as its first number, and then a semicolon. */
  lemma CodedStarts(numbers: seq<nat>)
    requires numbers != []
    ensures |Coded(numbers)| > numbers[0] && Coded(numbers)[numbers[0]] == ';'
    ensures forall k :: 0 <= k < numbers[0] ==> Coded(numbers)[k] == 'i'
    ensures Coded(numbers)[numbers[0] + 1..] == Coded(numbers[1..])
  {}

  lemma {:induction false} CodedInjective(a: seq<nat>, b: seq<nat>)
    requires Coded(a) == Coded(b)
    ensures a == b
  {
    if a == [] || b == [] {
      if a != [] { CodedStarts(a); }
      if b != [] { CodedStarts(b); }
    } else {
      CodedStarts(a);
      CodedStarts(b);
      var code := Coded(a);
      assert code[a[0]] == ';' && code[b[0]] == ';';
      assert a[0] == b[0];
      CodedInjective(a[1..], b[1..]);
      assert a == [a[0]] + a[1..] && b == [b[0]] + b[1..];
    }
  }

  lemma {:induction false} CodedPlain(numbers: seq<nat>)
    ensures forall k :: 0 <= k < |Coded(numbers)| ==> Coded(numbers)[k] == 'i' || Coded(numbers)[k] == ';'
  {
    if numbers != [] {
      CodedPlain(numbers[1..]);
    }
  }

  lemma EncodedInjective(a: RunEvent, b: RunEvent)
    requires Encoded(a) == Encoded(b)
    ensures a == b
  {
    assert Encoded(a)[1] == Encoded(b)[1];
    assert Encoded(a)[2..] == Coded(NumbersOf(a)) && Encoded(b)[2..] == Coded(NumbersOf(b));
    CodedInjective(NumbersOf(a), NumbersOf(b));
    assert NumbersOf(a)[0] == NumbersOf(b)[0];
    forall i | 0 <= i < |a.body| ensures a.body[i] == b.body[i] {
      assert NumbersOf(a)[i + 1] == NumbersOf(b)[i + 1];
    }
  }

  /** An encoding opens with its only brace, and holds no line end. */
  lemma OneBrace(e: RunEvent)
    ensures |Encoded(e)| > 0 && Encoded(e)[0] == '{'
    ensures forall k :: 0 < k < |Encoded(e)| ==> Encoded(e)[k] != '{'
    ensures '\n' !in Encoded(e) && '\r' !in Encoded(e)
  {
    CodedPlain(NumbersOf(e));
  }

  lemma {:induction false} FragmentsOpen(fragments: seq<Fragment>)
    ensures Joined(SampleCodec(), fragments) != [] ==> Joined(SampleCodec(), fragments)[0] == '{'
  {
    if fragments != [] {
      FragmentsOpen(fragments[..|fragments| - 1]);
      OneBrace(fragments[|fragments| - 1].event);
    }
  }

  /** The codec round-trips on one line, and no line that swallowed a fragment parses. */
  lemma SampleCodecIsStrict()
    ensures CodecOk(SampleCodec()) && Strict(SampleCodec())
  {
    var c := SampleCodec();
    forall e ensures c.parse(c.encode(e)) == Accept(Some(e)) && '\n' !in c.encode(e) && '\r' !in c.encode(e) {
      OneBrace(e);
      assert Encoded(e) == Encoded(e);
      var found := Parsed(Encoded(e)).value.value;
      EncodedInjective(found, e);
    }
    forall fragments, e | Joined(c, fragments) != [] ensures c.parse(Joined(c, fragments) + c.encode(e)).Reject? {
      FragmentsOpen(fragments);
      OneBrace(e);
      var line := Joined(c, fragments) + c.encode(e);
      assert line[|Joined(c, fragments)|] == '{';
      forall other ensures Encoded(other) != line {
        OneBrace(other);
      }
    }
  }
}
