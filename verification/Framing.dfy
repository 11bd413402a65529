/** The length-prefixed framing of DNS over TCP (section 4.2.2 of RFC 1035). */
module Framing {
  import opened Bytes

  /** A message the framing can carry and the reader accepts. */
  type Message = m: seq<Byte> | 2 <= |m| <= 65535 witness [0, 0]

  function Frame(message: Message): (r: seq<Byte>)
    ensures |r| == |message| + 2
  {
    ToBe16(|message|) + message
  }

  /** The bytes on the wire once the messages have been written one after another. */
  function Stream(messages: seq<Message>): (r: seq<Byte>) {
    if messages == [] then [] else Stream(messages[..|messages| - 1]) + Frame(messages[|messages| - 1])
  }

  /** Bytes from which the reader cannot yet take a frame. */
  predicate Incomplete(bytes: seq<Byte>) {
    |bytes| < 2 || (FromBe16(bytes[0], bytes[1]) >= 2 && |bytes| < 2 + FromBe16(bytes[0], bytes[1]))
  }

  /** The reader's loop: the bodies it takes off the front of the bytes, and what it leaves. */
  function Parse(bytes: seq<Byte>): (r: (seq<Message>, seq<Byte>))
    decreases |bytes|
  {
    if |bytes| < 2 then ([], bytes)
    else
      var length := FromBe16(bytes[0], bytes[1]);
      if length < 2 || |bytes| < 2 + length then ([], bytes)
      else
        var rest := Parse(bytes[2 + length..]);
        ([bytes[2..2 + length]] + rest.0, rest.1)
  }

  lemma ParseFrame(m: Message, tail: seq<Byte>)
    ensures Parse(Frame(m) + tail) == ([m] + Parse(tail).0, Parse(tail).1)
  {
    var bytes := Frame(m) + tail;
    assert bytes[2..2 + |m|] == m && bytes[2 + |m|..] == tail;
    assert FromBe16(bytes[0], bytes[1]) == |m|;
  }

  /** Parsing the written frames gives back the messages, in order, and leaves the rest. */
  lemma {:induction false} ParseStream(messages: seq<Message>, tail: seq<Byte>)
    ensures Parse(Stream(messages) + tail) == (messages + Parse(tail).0, Parse(tail).1)
  {
    if messages == [] {
      assert Stream(messages) + tail == tail;
      assert messages + Parse(tail).0 == Parse(tail).0;
    } else {
      var init, last := messages[..|messages| - 1], messages[|messages| - 1];
      var rest := Frame(last) + tail;
      ParseStream(init, rest);
      ParseFrame(last, tail);
      StreamSplit(messages, tail);
      Regroup(messages, Parse(tail).0);
    }
  }

  lemma Regroup<T>(s: seq<T>, t: seq<T>)
    requires s != []
    ensures s[..|s| - 1] + ([s[|s| - 1]] + t) == s + t
  {
  }

  lemma StreamSplit(messages: seq<Message>, tail: seq<Byte>)
    requires messages != []
    ensures Stream(messages) + tail == Stream(messages[..|messages| - 1]) + (Frame(messages[|messages| - 1]) + tail)
  {
  }

  /** A frame cut short is something the reader waits on. */
  lemma CutFrameIncomplete(m: Message, n: nat)
    requires n < |Frame(m)|
    ensures Incomplete(Frame(m)[..n]) && Parse(Frame(m)[..n]) == ([], Frame(m)[..n])
  {
    var cut := Frame(m)[..n];
    if n >= 2 {
      assert cut[0] == Frame(m)[0] && cut[1] == Frame(m)[1];
      assert FromBe16(cut[0], cut[1]) == |m|;
    }
  }

  // ---- The reader task, with its idle timeout ----

  /** One round of the reader's loop: it takes a frame, or its timeout fires while
      ids are in flight, after `lost` bytes of the length prefix were consumed. */
  datatype Round = Take | Timeout(lost: nat)

  /** The rounds fit what is on the stream. */
  predicate Fits(bytes: seq<Byte>, rounds: seq<Round>)
    decreases |rounds|
  {
    rounds == [] ||
    (match rounds[0]
     case Take =>
       && !Incomplete(bytes) && FromBe16(bytes[0], bytes[1]) >= 2
       && Fits(bytes[2 + FromBe16(bytes[0], bytes[1])..], rounds[1..])
     case Timeout(lost) => lost <= 1 && lost <= |bytes| && Fits(bytes[lost..], rounds[1..]))
  }

  /** The bodies the reader hands out, and the bytes it leaves. */
  function Received(bytes: seq<Byte>, rounds: seq<Round>): (r: (seq<Message>, seq<Byte>))
    requires Fits(bytes, rounds)
    decreases |rounds|
  {
    if rounds == [] then ([], bytes)
    else match rounds[0]
         case Take =>
           var length := FromBe16(bytes[0], bytes[1]);
           var rest := Received(bytes[2 + length..], rounds[1..]);
           ([bytes[2..2 + length]] + rest.0, rest.1)
         case Timeout(lost) => Received(bytes[lost..], rounds[1..])
  }

  /** The loop itself. */
  method ReadLoop(bytes: seq<Byte>, rounds: seq<Round>) returns (bodies: seq<Message>, rest: seq<Byte>)
    requires Fits(bytes, rounds)
    ensures (bodies, rest) == Received(bytes, rounds)
  {
    bodies, rest := [], bytes;
    assert rounds[0..] == rounds && [] + Received(bytes, rounds).0 == Received(bytes, rounds).0;
    for i := 0 to |rounds|
      invariant Fits(rest, rounds[i..])
      invariant Received(bytes, rounds) == (bodies + Received(rest, rounds[i..]).0, Received(rest, rounds[i..]).1)
    {
      assert rounds[i..][1..] == rounds[i + 1..];
      match rounds[i]
      case Take =>
        var length := FromBe16(rest[0], rest[1]);
        var body := rest[2..2 + length];
        Snoc(bodies, body, Received(rest[2 + length..], rounds[i + 1..]).0);
        bodies, rest := bodies + [body], rest[2 + length..];
      case Timeout(lost) => rest := rest[lost..];
    }
    assert rounds[|rounds|..] == [] && bodies + [] == bodies;
  }

  lemma Snoc<T>(s: seq<T>, x: T, t: seq<T>)
    ensures s + ([x] + t) == (s + [x]) + t
  {
  }

  function Lost(rounds: seq<Round>): nat {
    if rounds == [] then 0 else (if rounds[0].Timeout? then rounds[0].lost else 0) + Lost(rounds[1..])
  }

  lemma {:induction false} StreamFront(messages: seq<Message>)
    requires messages != []
    ensures Stream(messages) == Frame(messages[0]) + Stream(messages[1..])
  {
    var n := |messages| - 1;
    if n == 0 {
      Slices(messages);
    } else {
      var head, middle, last := Frame(messages[0]), Stream(messages[..n][1..]), Frame(messages[n]);
      StreamFront(messages[..n]);
      InnerSlice(messages);
      Assoc(head, middle, last);
    }
  }

  lemma Slices<T>(s: seq<T>)
    requires |s| == 1
    ensures s[..0] == [] && s[1..] == []
  {
  }

  lemma InnerSlice<T>(s: seq<T>)
    requires |s| >= 2
    ensures s[..|s| - 1][1..] == s[1..][..|s| - 2] && s[1..][|s| - 2] == s[|s| - 1] && s[..|s| - 1][0] == s[0]
  {
  }

  lemma Assoc<T>(a: seq<T>, b: seq<T>, c: seq<T>)
    ensures (a + b) + c == a + (b + c)
  {
  }

  /** Every byte is handed out, lost or left. */
  lemma {:induction false} BytesConserved(bytes: seq<Byte>, rounds: seq<Round>)
    requires Fits(bytes, rounds)
    ensures |bytes| == |Stream(Received(bytes, rounds).0)| + Lost(rounds) + |Received(bytes, rounds).1|
    decreases |rounds|
  {
    if rounds != [] {
      match rounds[0]
      case Take =>
        var rest := bytes[2 + FromBe16(bytes[0], bytes[1])..];
        BytesConserved(rest, rounds[1..]);
        StreamFront(Received(bytes, rounds).0);
        assert Received(bytes, rounds).0[1..] == Received(rest, rounds[1..]).0;
      case Timeout(lost) => BytesConserved(bytes[lost..], rounds[1..]);
    }
  }

  lemma {:induction false} LosslessRead(messages: seq<Message>, rounds: seq<Round>)
    requires Fits(Stream(messages), rounds) && Lost(rounds) == 0
    ensures Received(Stream(messages), rounds).0 <= messages
    ensures Received(Stream(messages), rounds).1 == Stream(messages[|Received(Stream(messages), rounds).0|..])
    decreases |rounds|
  {
    var bytes := Stream(messages);
    if rounds == [] {
      WholeSlice(messages);
    } else if rounds[0].Timeout? {
      WholeSlice(bytes);
      LosslessRead(messages, rounds[1..]);
    } else {
      var rest := Stream(messages[1..]);
      StreamFront(messages);
      FrontOfFrame(messages[0], rest);
      LosslessRead(messages[1..], rounds[1..]);
      PrefixCons(messages, Received(rest, rounds[1..]).0);
    }
  }

  lemma WholeSlice<T>(s: seq<T>)
    ensures s[0..] == s
  {
  }

  lemma PrefixCons<T>(s: seq<T>, p: seq<T>)
    requires s != [] && p <= s[1..]
    ensures [s[0]] + p <= s && s[1..][|p|..] == s[|p| + 1..]
  {
  }

  lemma FrontOfFrame(m: Message, tail: seq<Byte>)
    ensures var bytes := Frame(m) + tail;
            FromBe16(bytes[0], bytes[1]) == |m| && bytes[2..2 + |m|] == m && bytes[2 + |m|..] == tail
  {
  }

  /** The reader that has consumed the whole stream has handed out exactly the messages,
      in order, if and only if no timeout fired inside a length prefix. */
  lemma ReaderRecovers(messages: seq<Message>, rounds: seq<Round>)
    requires Fits(Stream(messages), rounds) && Received(Stream(messages), rounds).1 == []
    ensures Received(Stream(messages), rounds).0 == messages <==> Lost(rounds) == 0
  {
    BytesConserved(Stream(messages), rounds);
    if Lost(rounds) == 0 {
      LosslessRead(messages, rounds);
      var left := messages[|Received(Stream(messages), rounds).0|..];
      if left != [] { StreamFront(left); }
    }
  }

  lemma StreamOfOne(message: Message)
    ensures Stream([message]) == Frame(message)
  {
    assert [message][..0] == [] && Stream([]) == [];
  }

  /** One message of 256 bytes that begins with 255: the timeout eats the first byte of its
      prefix, and the reader hands out the other 255 bytes as if they were a message. */
  lemma PrefixCut(message: Message)
    requires |message| == 256 && message[0] == 255
    ensures var rounds := [Timeout(1), Take];
            && Fits(Stream([message]), rounds) && Lost(rounds) == 1
            && Received(Stream([message]), rounds) == ([message[1..]], [])
            && Received(Stream([message]), rounds).0 != [message]
  {
    var rounds, bytes := [Timeout(1), Take], Stream([message]);
    StreamOfOne(message);
    assert rounds[1..] == [Take] && [Take][1..] == [];
    assert bytes[0] == 1 && bytes[1] == 0 && bytes[2] == 255;
    var rest := bytes[1..];
    assert FromBe16(rest[0], rest[1]) == 255 && |rest| == 257;
    assert rest[2..257] == message[1..] && rest[257..] == [];
    assert Fits([], []) && Fits(rest, [Take]);
    assert Received(bytes, rounds) == Received(rest, [Take]) == ([message[1..]] + [], []);
    assert [message[1..]] + [] == [message[1..]];
    assert Lost([Take]) == 0;
  }
}
