/** Messages over a datagram socket (gps/utils/LocIpc.cpp): a long message is announced by
    a head that carries its length in decimal, and follows in chunks. The receive buffer is
    one string that is reused, so what an earlier message left in it is part of the model.
    size_t is taken to be 64 bits wide. */
module LocIpc {

  import opened Runs

  type Byte = b: int | 0 <= b < 256

  const LOC_MSG_BUF_LEN := 8192
  const LOC_MSG_HEAD: seq<Byte> := [36, 77, 83, 71, 76, 69, 78, 36]  // $MSGLEN$
  const LOC_MSG_ABORT: seq<Byte> :=                                 // LocIpcMsg::ABORT
    [76, 111, 99, 73, 112, 99, 77, 115, 103, 58, 58, 65, 66, 79, 82, 84]
  const SIZE_MAX := 0xFFFF_FFFF_FFFF_FFFF
  const UINT32_MAX := 0xFFFF_FFFF

  // ---------- Decimal numbers: std::to_string and the %zu of sscanf ----------

  function Decimal(n: nat): seq<Byte> {
    if n < 10 then [48 + n] else Decimal(n / 10) + [48 + n % 10]
  }

  predicate IsDigit(b: Byte) {
    48 <= b <= 57
  }

  function DigitRun(s: seq<Byte>): seq<Byte> {
    if s == [] || !IsDigit(s[0]) then [] else [s[0]] + DigitRun(s[1..])
  }

  function Value(digits: seq<Byte>): int {
    if digits == [] then 0
    else Value(digits[..|digits| - 1]) * 10 + digits[|digits| - 1] as int - 48
  }

  // Without digits the number keeps its initial value 0; a too large one saturates.
  function ParseLen(s: seq<Byte>): nat {
    var v := Value(DigitRun(s));
    if v < 0 then 0 else if v > SIZE_MAX then SIZE_MAX else v
  }

  lemma {:induction false} DecimalIsRead(n: nat)
    ensures Value(Decimal(n)) == n && |Decimal(n)| >= 1
    ensures forall i | 0 <= i < |Decimal(n)| :: IsDigit(Decimal(n)[i])
  {
    if n >= 10 {
      DecimalIsRead(n / 10);
      assert Decimal(n)[..|Decimal(n)| - 1] == Decimal(n / 10);
    }
  }

  lemma {:induction false} DecimalIsShort(n: nat, k: nat)
    requires 1 <= k && n < Pow10(k)
    ensures |Decimal(n)| <= k
  {
    if n >= 10 {
      DecimalIsShort(n / 10, k - 1);
    }
  }

  function Pow10(k: nat): nat {
    if k == 0 then 1 else 10 * Pow10(k - 1)
  }

  lemma {:induction false} DigitRunOver(digits: seq<Byte>, rest: seq<Byte>)
    requires forall i | 0 <= i < |digits| :: IsDigit(digits[i])
    ensures DigitRun(digits + rest) == digits + DigitRun(rest)
  {
    if digits == [] {
      assert digits + rest == rest;
    } else {
      assert (digits + rest)[1..] == digits[1..] + rest;
      DigitRunOver(digits[1..], rest);
    }
  }

  lemma {:induction false} MoreDigitsMeanMore(a: seq<Byte>, b: seq<Byte>)
    requires Value(a) > 0 && b != []
    requires forall i | 0 <= i < |b| :: IsDigit(b[i])
    ensures Value(a + b) > Value(a)
    decreases |b|
  {
    var b' := b[..|b| - 1];
    assert (a + b)[..|a + b| - 1] == a + b';
    if b' == [] {
      assert a + b' == a;
    } else {
      MoreDigitsMeanMore(a, b');
    }
  }

  // A length is read back exactly when no further digit follows it.
  lemma ParseLenIffNoDigitFollows(n: nat, rest: seq<Byte>)
    requires 0 < n <= UINT32_MAX
    ensures ParseLen(Decimal(n) + rest) == n <==> (rest == [] || !IsDigit(rest[0]))
    ensures ParseLen(Decimal(n) + rest) >= n
  {
    DecimalIsRead(n);
    DigitRunOver(Decimal(n), rest);
    var more := DigitRun(rest);
    DigitRunDigits(rest);
    if more == [] {
      assert Decimal(n) + more == Decimal(n);
    } else {
      MoreDigitsMeanMore(Decimal(n), more);
    }
  }

  lemma {:induction false} DigitRunDigits(s: seq<Byte>)
    ensures forall i | 0 <= i < |DigitRun(s)| :: IsDigit(DigitRun(s)[i])
  {
    if s != [] && IsDigit(s[0]) {
      DigitRunDigits(s[1..]);
    }
  }

  // ---------- Sending ----------

  function Chunks(data: seq<Byte>): seq<seq<Byte>> {
    if data == [] then []
    else if |data| <= LOC_MSG_BUF_LEN then [data]
    else [data[..LOC_MSG_BUF_LEN]] + Chunks(data[LOC_MSG_BUF_LEN..])
  }

  function Head(length: nat): seq<Byte> {
    LOC_MSG_HEAD + Decimal(length)
  }

  function Datagrams(data: seq<Byte>): seq<seq<Byte>> {
    if |data| <= LOC_MSG_BUF_LEN then [data] else [Head(|data|)] + Chunks(data)
  }

  // sendData, on a socket that takes every datagram. sent lists the sendto calls.
  method SendData(data: seq<Byte>) returns (sent: seq<seq<Byte>>)
    ensures sent == Datagrams(data)
  {
    if |data| <= LOC_MSG_BUF_LEN {
      sent := [data];
    } else {
      sent := [Head(|data|)];
      var sentBytes := 0;
      while sentBytes < |data|
        invariant sentBytes <= |data|
        invariant Datagrams(data) == sent + Chunks(data[sentBytes..])
      {
        var partLen := |data| - sentBytes;
        if partLen > LOC_MSG_BUF_LEN {
          partLen := LOC_MSG_BUF_LEN;
        }
        var rest := data[sentBytes..];
        assert rest[partLen..] == data[sentBytes + partLen..];
        if partLen == |rest| {
          assert rest[..partLen] == rest && rest[partLen..] == [];
        }
        assert Chunks(rest) == [rest[..partLen]] + Chunks(rest[partLen..]);
        assert data[sentBytes..sentBytes + partLen] == rest[..partLen];
        Assoc(sent, [rest[..partLen]], Chunks(rest[partLen..]));
        sent := sent + [data[sentBytes..sentBytes + partLen]];
        sentBytes := sentBytes + partLen;
      }
    }
  }

  // A long message goes out as a head and chunks that are as large as they may be, and make
  // up the message.
  lemma {:induction false} ChunksAreFull(data: seq<Byte>)
    requires data != []
    ensures var cs := Chunks(data);
      && cs != [] && 0 < |cs[|cs| - 1]| <= LOC_MSG_BUF_LEN
      && (forall i | 0 <= i < |cs| - 1 :: |cs[i]| == LOC_MSG_BUF_LEN)
      && Joined(cs) == data
    decreases |data|
  {
    if |data| > LOC_MSG_BUF_LEN {
      var rest := data[LOC_MSG_BUF_LEN..];
      ChunksAreFull(rest);
      assert Chunks(data)[1..] == Chunks(rest);
      assert data == data[..LOC_MSG_BUF_LEN] + rest;
      forall i | 0 <= i < |Chunks(data)| - 1 ensures |Chunks(data)[i]| == LOC_MSG_BUF_LEN {
        if i > 0 {
          assert Chunks(data)[i] == Chunks(rest)[i - 1];
        }
      }
    } else {
      assert Joined([data]) == data + Joined([]);
    }
  }

  function Joined(ds: seq<seq<Byte>>): seq<Byte> {
    if ds == [] then [] else ds[0] + Joined(ds[1..])
  }

  // ---------- Receiving ----------

  // std::string::resize.
  function Resize(s: seq<Byte>, n: nat): (r: seq<Byte>)
    ensures |r| == n
  {
    if n <= |s| then s[..n] else s + seq(n - |s|, _ => 0)
  }

  function Min(a: nat, b: nat): nat {
    if a < b then a else b
  }

  // recvfrom into the buffer at an offset: what does not fit is lost, what lies behind stays.
  function Received(buf: seq<Byte>, at: nat, d: seq<Byte>): (r: seq<Byte>)
    requires at <= |buf|
    ensures |r| == |buf|
  {
    var n := Min(|d|, |buf| - at);
    buf[..at] + d[..n] + buf[at + n..]
  }

  // Where startListeningBlocking is when it waits in recvfrom: for a first datagram, with
  // the buffer as it stands, or in the middle of a long message.
  datatype Listener =
    | Reading(buf: seq<Byte>)
    | Assembling(msg: seq<Byte>, received: nat)
    | Stopped

  function Ready(msg: seq<Byte>): Listener {
    Reading(Resize(msg, LOC_MSG_BUF_LEN))
  }

  type Outcome = Effect<Listener, seq<Byte>>

  // What one datagram does: the new state, and the messages passed to onReceive.
  function OnDatagram(l: Listener, d: seq<Byte>): Outcome {
    match l
    case Reading(buf) =>
      var nBytes := Min(|d|, |buf|);
      var msg := Received(buf, 0, d);
      if nBytes == 0 then Effect(l, [])
      else if LOC_MSG_ABORT <= msg then Effect(Stopped, [])
      else if !(LOC_MSG_HEAD <= msg) then Effect(Ready(msg[..nBytes]), [msg[..nBytes]])
      else
        var msgLen := ParseLen(msg[|LOC_MSG_HEAD|..]);
        var long := Resize(msg, msgLen);
        if msgLen == 0 then Effect(Ready(long), [long]) else Effect(Assembling(long, 0), [])
    case Assembling(msg, received) =>
      if received >= |msg| then Effect(Stopped, []) else  // no such state is reached
      var nBytes := Min(|d|, |msg| - received);
      var msg' := Received(msg, received, d);
      if nBytes == 0 then Effect(Stopped, [])
      else if received + nBytes < |msg| then Effect(Assembling(msg', received + nBytes), [])
      else Effect(Ready(msg'), [msg'])
    case Stopped => Effect(Stopped, [])
  }

  function Feed(l: Listener, ds: seq<seq<Byte>>): Outcome {
    Emits(OnDatagram, l, ds)
  }

  function Delivered(l: Listener, ds: seq<seq<Byte>>): seq<seq<Byte>>
  {
    Feed(l, ds).out
  }

  lemma FeedOne(l: Listener, ds: seq<seq<Byte>>)
    requires ds != []
    ensures var o := OnDatagram(l, ds[0]); Delivered(l, ds) == o.out + Delivered(o.state, ds[1..])
  {}

  // What is still delivered when the inner loop has filled a part of msg, and its last
  // recvfrom returned nBytes.
  function StillDelivered(msg: seq<Byte>, received: nat, nBytes: nat, ds: seq<seq<Byte>>): seq<seq<Byte>>
    requires received <= |msg|
  {
    if nBytes == 0 then []
    else if received < |msg| then Delivered(Assembling(msg, received), ds)
    else [msg] + Delivered(Ready(msg), ds)
  }

  lemma AssembleOne(msg: seq<Byte>, received: nat, ds: seq<seq<Byte>>)
    requires received < |msg| && ds != []
    ensures var n := Min(|ds[0]|, |msg| - received);
      Delivered(Assembling(msg, received), ds) ==
      StillDelivered(Received(msg, received, ds[0]), received + n, n, ds[1..])
  {
    FeedOne(Assembling(msg, received), ds);
    StoppedForGood(ds[1..]);
  }

  // The inner loop of startListeningBlocking. It is not done when the other side has closed
  // the message with an empty datagram, or when the socket has nothing more to give.
  method ReceiveLong(start: seq<Byte>, ds: seq<seq<Byte>>) returns (done: bool, msg: seq<Byte>, used: nat)
    ensures used <= |ds|
    ensures StillDelivered(start, 0, 1, ds) == if done then [msg] + Delivered(Ready(msg), ds[used..]) else []
  {
    msg, used := start, 0;
    var msgLenReceived: nat := 0;
    var nBytes: nat := 1;
    assert ds[used..] == ds;
    while msgLenReceived < |start| && nBytes > 0 && used < |ds|
      invariant used <= |ds| && msgLenReceived <= |start| == |msg|
      invariant StillDelivered(start, 0, 1, ds) == StillDelivered(msg, msgLenReceived, nBytes, ds[used..])
      decreases |ds| - used
    {
      AssembleOne(msg, msgLenReceived, ds[used..]);
      assert ds[used..][1..] == ds[used + 1..];
      nBytes := Min(|ds[used]|, |msg| - msgLenReceived);
      msg := Received(msg, msgLenReceived, ds[used]);
      msgLenReceived := msgLenReceived + nBytes;
      used := used + 1;
    }
    done := nBytes > 0 && msgLenReceived == |start|;
  }

  // What is still delivered when recvfrom has put nBytes at the start of msg.
  function DeliveredAfter(msg: seq<Byte>, nBytes: nat, ds: seq<seq<Byte>>): seq<seq<Byte>>
    requires nBytes <= |msg|
  {
    if nBytes == 0 then Delivered(Reading(msg), ds)
    else if LOC_MSG_ABORT <= msg then []
    else if !(LOC_MSG_HEAD <= msg) then [msg[..nBytes]] + Delivered(Ready(msg[..nBytes]), ds)
    else StillDelivered(Resize(msg, ParseLen(msg[|LOC_MSG_HEAD|..])), 0, 1, ds)
  }

  lemma ListenOne(msg: seq<Byte>, ds: seq<seq<Byte>>)
    requires ds != []
    ensures Delivered(Ready(msg), ds) ==
            DeliveredAfter(Received(Resize(msg, LOC_MSG_BUF_LEN), 0, ds[0]),
                           Min(|ds[0]|, LOC_MSG_BUF_LEN), ds[1..])
  {
    FeedOne(Ready(msg), ds);
    StoppedForGood(ds[1..]);
    if Min(|ds[0]|, LOC_MSG_BUF_LEN) == 0 {
      assert Received(Resize(msg, LOC_MSG_BUF_LEN), 0, ds[0]) == Resize(msg, LOC_MSG_BUF_LEN);
    }
  }

  // The body of the outer loop of startListeningBlocking, after its recvfrom: delivers at
  // most one message, and tells whether to go on listening with what is then in msg.
  method HandleFirst(got: seq<Byte>, nBytes: nat, ds: seq<seq<Byte>>)
    returns (goOn: bool, msg: seq<Byte>, used: nat, delivered: seq<seq<Byte>>)
    requires nBytes <= |got| == LOC_MSG_BUF_LEN
    ensures used <= |ds|
    ensures DeliveredAfter(got, nBytes, ds) == delivered + if goOn then Delivered(Ready(msg), ds[used..]) else []
  {
    goOn, msg, used, delivered := true, got, 0, [];
    assert ds[0..] == ds;
    if nBytes == 0 {
      assert Ready(msg) == Reading(msg);
    } else if LOC_MSG_ABORT <= got {
      goOn := false;
    } else if !(LOC_MSG_HEAD <= got) {
      msg := Resize(msg, nBytes);
      delivered := [msg];
    } else {
      goOn, msg, used := ReceiveLong(Resize(msg, ParseLen(msg[|LOC_MSG_HEAD|..])), ds);
      if goOn {
        delivered := [msg];
      }
    }
  }

  // startListeningBlocking, until it stops or the socket has nothing more to give.
  // delivered lists the calls of onReceive.
  method Listen(ds: seq<seq<Byte>>) returns (delivered: seq<seq<Byte>>)
    ensures delivered == Delivered(Ready([]), ds)
  {
    delivered := [];
    var msg: seq<Byte> := [];
    var left := ds;
    var goOn := true;
    ghost var all := Delivered(Ready([]), ds);
    ghost var toCome := all;
    while goOn && left != []
      invariant all == delivered + toCome
      invariant toCome == if goOn then Delivered(Ready(msg), left) else []
      decreases |left|
    {
      ListenOne(msg, left);
      msg := Resize(msg, LOC_MSG_BUF_LEN);
      var nBytes := Min(|left[0]|, |msg|);
      msg, left := Received(msg, 0, left[0]), left[1..];
      var used, more;
      goOn, msg, used, more := HandleFirst(msg, nBytes, left);
      left := left[used..];
      ghost var after := if goOn then Delivered(Ready(msg), left) else [];
      assert toCome == more + after;
      Assoc(delivered, more, after);
      toCome := after;
      delivered := delivered + more;
    }
  }

  // An empty datagram is ignored between messages, and ends the listening within one.
  lemma EmptyDatagram(was: seq<Byte>, msg: seq<Byte>, received: nat)
    requires received < |msg|
    ensures OnDatagram(Ready(was), []) == Effect(Ready(was), [])
    ensures OnDatagram(Assembling(msg, received), []) == Effect(Stopped, [])
  {
    assert Received(Resize(was, LOC_MSG_BUF_LEN), 0, []) == Resize(was, LOC_MSG_BUF_LEN);
  }

  // A head without a length makes an empty message.
  lemma HeadWithoutLength(was: seq<Byte>, rest: seq<Byte>)
    requires |LOC_MSG_HEAD| + |rest| <= LOC_MSG_BUF_LEN && rest != [] && !IsDigit(rest[0])
    ensures OnDatagram(Ready(was), LOC_MSG_HEAD + rest) == Effect(Ready([]), [[]])
  {
    var d := LOC_MSG_HEAD + rest;
    var buf := Received(Resize(was, LOC_MSG_BUF_LEN), 0, d);
    assert d[..|d|] == d;
    assert forall i | 0 <= i < |d| :: buf[i] == d[i];
    assert forall i | 0 <= i < |LOC_MSG_HEAD| :: d[i] == LOC_MSG_HEAD[i];
    assert LOC_MSG_HEAD <= buf && buf[|LOC_MSG_HEAD|] == rest[0];
    assert buf[0] != LOC_MSG_ABORT[0];
    assert DigitRun(buf[|LOC_MSG_HEAD|..]) == [];
  }

  // A message that starts with the abort text ends the listening, and nothing is delivered
  // from then on.
  lemma AbortEndsListening(was: seq<Byte>, rest: seq<Byte>, ds: seq<seq<Byte>>)
    requires |LOC_MSG_ABORT| + |rest| <= LOC_MSG_BUF_LEN
    ensures Delivered(Ready(was), [LOC_MSG_ABORT + rest] + ds) == []
  {
    var d := LOC_MSG_ABORT + rest;
    var all := [d] + ds;
    assert all[0] == d && all[1..] == ds;
    var buf := Received(Resize(was, LOC_MSG_BUF_LEN), 0, d);
    assert d[..|d|] == d;
    assert forall i | 0 <= i < |LOC_MSG_ABORT| :: buf[i] == d[i] == LOC_MSG_ABORT[i];
    FeedOne(Ready(was), all);
    StoppedForGood(ds);
  }

  lemma {:induction false} StoppedForGood(ds: seq<seq<Byte>>)
    ensures Feed(Stopped, ds) == Effect(Stopped, [])
    decreases |ds|
  {
    if ds != [] {
      StoppedForGood(ds[1..]);
    }
  }

  // ---------- When a message arrives as it was sent ----------

  predicate StartsReserved(s: seq<Byte>) {
    LOC_MSG_ABORT <= s || LOC_MSG_HEAD <= s
  }

  // Whether message m gets through a listener that delivered "was" last (nothing: []). It
  // depends on the bytes of "was" that lie behind the first datagram of m in the buffer.
  predicate Clean(was: seq<Byte>, m: seq<Byte>) {
    var buf := Resize(was, LOC_MSG_BUF_LEN);
    if |m| <= LOC_MSG_BUF_LEN then m != [] && !StartsReserved(Received(buf, 0, m))
    else |Head(|m|)| < LOC_MSG_BUF_LEN && !IsDigit(buf[|Head(|m|)|])
  }

  lemma ShortMessageIffClean(was: seq<Byte>, m: seq<Byte>)
    requires |m| <= LOC_MSG_BUF_LEN
    ensures var o := Feed(Ready(was), Datagrams(m));
      && (o.out == [m] <==> Clean(was, m))
      && (Clean(was, m) ==> o.state == Ready(m))
  {
    var o := OnDatagram(Ready(was), m);
    EmitsOne(OnDatagram, Ready(was), m);
    assert Received(Resize(was, LOC_MSG_BUF_LEN), 0, m)[..|m|] == m;
    if o.out != [] {
      assert o.out[0] == m || o.out[0] == [];
    }
  }

  lemma {:induction false} AssemblesChunks(msg: seq<Byte>, received: nat, rest: seq<Byte>)
    requires received < |msg| && rest != []
    ensures var o := Feed(Assembling(msg, received), Chunks(rest));
      && (received + |rest| == |msg| ==>
            var whole := msg[..received] + rest; o == Effect(Ready(whole), [whole]))
      && (received + |rest| < |msg| ==> o.out == [])
    decreases |rest|
  {
    if |rest| <= LOC_MSG_BUF_LEN {
      EmitsOne(OnDatagram, Assembling(msg, received), rest);
      if received + |rest| == |msg| {
        assert Received(msg, received, rest) == msg[..received] + rest;
      }
    } else {
      var d, rest' := rest[..LOC_MSG_BUF_LEN], rest[LOC_MSG_BUF_LEN..];
      assert Chunks(rest) == [d] + Chunks(rest');
      assert Chunks(rest)[1..] == Chunks(rest');
      if received + |rest| <= |msg| {
        var msg' := Received(msg, received, d);
        assert OnDatagram(Assembling(msg, received), d) == Effect(Assembling(msg', received + |d|), []);
        AssemblesChunks(msg', received + |d|, rest');
        assert msg'[..received + |d|] == msg[..received] + d;
        assert msg[..received] + d + rest' == msg[..received] + rest;
      }
    }
  }

  lemma HeadIsShort(length: nat)
    requires length <= UINT32_MAX
    ensures |Head(length)| < LOC_MSG_BUF_LEN
  {
    assert Pow10(3) == 1000;
    assert Pow10(6) == 1000 * Pow10(3);
    assert Pow10(9) == 1000 * Pow10(6);
    DecimalIsShort(length, 10);
  }

  lemma HeadIsUnderstood(was: seq<Byte>, length: nat)
    requires 0 < length <= UINT32_MAX
    ensures var buf := Resize(was, LOC_MSG_BUF_LEN);
      var h := Head(length);
      |h| < LOC_MSG_BUF_LEN &&
      exists long: seq<Byte> ::
        && OnDatagram(Ready(was), h) == Effect(Assembling(long, 0), [])
        && |long| >= length && (|long| == length <==> !IsDigit(buf[|h|]))
  {
    var buf := Resize(was, LOC_MSG_BUF_LEN);
    var h := Head(length);
    HeadIsShort(length);
    var got := Received(buf, 0, h);
    assert got == h + buf[|h|..];
    assert LOC_MSG_HEAD <= got && got[0] == 36;
    assert got[|LOC_MSG_HEAD|..] == Decimal(length) + buf[|h|..];
    ParseLenIffNoDigitFollows(length, buf[|h|..]);
    var long := Resize(got, ParseLen(got[|LOC_MSG_HEAD|..]));
    assert OnDatagram(Ready(was), h) == Effect(Assembling(long, 0), []);
  }

  lemma LongMessageIffClean(was: seq<Byte>, m: seq<Byte>)
    requires LOC_MSG_BUF_LEN < |m| <= UINT32_MAX
    ensures var o := Feed(Ready(was), Datagrams(m));
      && (o.out == [m] <==> Clean(was, m))
      && (Clean(was, m) ==> o.state == Ready(m))
  {
    HeadIsUnderstood(was, |m|);
    var long: seq<Byte> :|
      && OnDatagram(Ready(was), Head(|m|)) == Effect(Assembling(long, 0), [])
      && |long| >= |m| && (|long| == |m| <==> !IsDigit(Resize(was, LOC_MSG_BUF_LEN)[|Head(|m|)|]));
    assert Datagrams(m)[1..] == Chunks(m);
    AssemblesChunks(long, 0, m);
    assert long[..0] + m == m;
  }

  // One message: byte-identical, once, and at once, exactly when it is clean.
  lemma MessageArrivesIffClean(was: seq<Byte>, m: seq<Byte>)
    requires |m| <= UINT32_MAX
    ensures var o := Feed(Ready(was), Datagrams(m));
      && (o.out == [m] <==> Clean(was, m))
      && (Clean(was, m) ==> o.state == Ready(m))
  {
    if |m| <= LOC_MSG_BUF_LEN {
      ShortMessageIffClean(was, m);
    } else {
      LongMessageIffClean(was, m);
    }
  }

  // ---------- A whole conversation ----------

  ghost predicate Sendable(ms: seq<seq<Byte>>) {
    forall i | 0 <= i < |ms| :: |ms[i]| <= UINT32_MAX
  }

  // Every message is clean after the one before it.
  predicate AllClean(was: seq<Byte>, ms: seq<seq<Byte>>)
    decreases |ms|
  {
    ms != [] ==> Clean(was, ms[0]) && AllClean(ms[0], ms[1..])
  }

  function AllDatagrams(ms: seq<seq<Byte>>): seq<seq<Byte>> {
    if ms == [] then [] else Datagrams(ms[0]) + AllDatagrams(ms[1..])
  }

  // Each message has been delivered, alone and unchanged, when its last datagram is read.
  ghost predicate DeliveredInTurn(l: Listener, ms: seq<seq<Byte>>)
    decreases |ms|
  {
    ms != [] ==>
      var o := Feed(l, Datagrams(ms[0]));
      o.out == [ms[0]] && DeliveredInTurn(o.state, ms[1..])
  }

  lemma {:induction false} ConversationArrivesIffClean(was: seq<Byte>, ms: seq<seq<Byte>>)
    requires Sendable(ms)
    ensures DeliveredInTurn(Ready(was), ms) <==> AllClean(was, ms)
    decreases |ms|
  {
    if ms != [] {
      MessageArrivesIffClean(was, ms[0]);
      ConversationArrivesIffClean(ms[0], ms[1..]);
    }
  }

  // The stream of all datagrams of a clean conversation gives the messages back.
  lemma {:induction false} CleanConversationRoundTrip(was: seq<Byte>, ms: seq<seq<Byte>>)
    requires Sendable(ms) && AllClean(was, ms)
    ensures Delivered(Ready(was), AllDatagrams(ms)) == ms
    decreases |ms|
  {
    if ms != [] {
      MessageArrivesIffClean(was, ms[0]);
      CleanConversationRoundTrip(ms[0], ms[1..]);
      EmitsAppend(OnDatagram, Ready(was), Datagrams(ms[0]), AllDatagrams(ms[1..]));
      assert [ms[0]] + ms[1..] == ms;
    }
  }

  // A message that covers what its predecessor left is clean unless it starts with one of
  // the reserved texts itself.
  lemma CleanWhenPredecessorIsCovered(was: seq<Byte>, m: seq<Byte>)
    requires 0 < |m| <= UINT32_MAX && |was| <= |Datagrams(m)[0]|
    ensures Clean(was, m) <==> (|m| <= LOC_MSG_BUF_LEN ==> !StartsReserved(m))
  {
    HeadIsShort(|m|);
    var buf := Resize(was, LOC_MSG_BUF_LEN);
    if |m| <= LOC_MSG_BUF_LEN {
      var got := Received(buf, 0, m);
      SameStart(LOC_MSG_ABORT, m, got);
      SameStart(LOC_MSG_HEAD, m, got);
    }
  }

  // Zeros behind m do not complete a text without zeros.
  lemma SameStart(text: seq<Byte>, m: seq<Byte>, got: seq<Byte>)
    requires forall i | 0 <= i < |text| :: text[i] != 0
    requires |m| <= |got| && (forall i | 0 <= i < |m| :: got[i] == m[i])
    requires forall i | |m| <= i < |got| :: got[i] == 0
    ensures text <= got <==> text <= m
  {
    if |m| < |text| <= |got| {
      assert got[|m|] == 0 && text[|m|] != 0;
    }
  }

  // Thirteen digits, then a message of 8193 bytes: both are well-formed and neither starts
  // with a reserved text, and the second one does not arrive.
  lemma StaleDigitLosesLongMessage(m: seq<Byte>)
    requires |m| == 8193
    ensures var was := seq(13, _ => 48);
      Clean([], was) && !Clean(was, m) && Feed(Ready(was), Datagrams(m)).out != [m]
  {
    var was: seq<Byte> := seq(13, _ => 48);
    DecimalOf8193();
    assert Resize(was, LOC_MSG_BUF_LEN)[12] == 48;
    assert Received(Resize([], LOC_MSG_BUF_LEN), 0, was)[0] == 48;
    LongMessageIffClean(was, m);
  }

  lemma DecimalOf8193()
    ensures |Decimal(8193)| == 4
  {
    assert |Decimal(8)| == 1;
    assert |Decimal(81)| == 2;
    assert |Decimal(819)| == 3;
  }

  // Eight bytes, then one: what the first left in the buffer makes a head of the second.
  lemma StaleTailFakesHead()
    ensures var was, m := [65] + LOC_MSG_HEAD[1..], LOC_MSG_HEAD[..1];
      Clean([], was) && !StartsReserved(m) && Feed(Ready(was), Datagrams(m)).out != [m]
  {
    var was, m := [65] + LOC_MSG_HEAD[1..], LOC_MSG_HEAD[..1];
    assert Received(Resize([], LOC_MSG_BUF_LEN), 0, was)[0] == 65;
    var got := Received(Resize(was, LOC_MSG_BUF_LEN), 0, m);
    assert got[..8] == LOC_MSG_HEAD;
    ShortMessageIffClean(was, m);
  }
}
