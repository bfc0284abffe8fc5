// Pane data as it is put into a message.

module ControlEscape {
  import opened GridCell
  import opened Control

  predicate Plain(b: byte) {
    b >= 32 && b != 92
  }

  // The last of the run of plain bytes that starts at start.
  method PlainRun(data: seq<byte>, size: nat, start: nat) returns (i: nat)
    requires start < size <= |data| && Plain(data[start])
    ensures start <= i < size && (forall k :: start <= k <= i ==> Plain(data[k]))
    ensures i + 1 < size ==> !Plain(data[i + 1])
  {
    i := start;
    while i + 1 < size && Plain(data[i + 1])
      invariant start <= i < size
      invariant forall k :: start <= k <= i ==> Plain(data[k])
    {
      i := i + 1;
    }
  }

  // control_append_data: bytes that need no escape are copied a run at a time.
  method AppendData(message: seq<byte>, data: seq<byte>, size: nat) returns (longer: seq<byte>)
    requires size <= |data|
    ensures longer == message + Escape(data[..size])
  {
    hide Escape, EscapeByte;
    longer := message;
    var i := 0;
    NoData(data[..0]);
    while i < size
      invariant 0 <= i <= size
      invariant longer == message + Escape(data[..i])
    {
      if !Plain(data[i]) {
        EscapeOne(message, data, i);
        longer := longer + EscapeByte(data[i]);
      } else {
        var start := i;
        i := PlainRun(data, size, start);
        EscapeRun(message, data, start, i + 1);
        longer := longer + data[start..i + 1];
      }
      i := i + 1;
    }
  }

  lemma NoData(data: seq<byte>)
    requires |data| == 0
    ensures Escape(data) == []
  {
  }

  lemma EscapeOne(message: seq<byte>, data: seq<byte>, i: nat)
    requires i < |data|
    ensures message + Escape(data[..i]) + EscapeByte(data[i]) == message + Escape(data[..i + 1])
  {
    hide Escape, EscapeByte;
    assert data[..i + 1] == data[..i] + [data[i]];
    EscapePush(data[..i], data[i]);
  }

  lemma EscapeRun(message: seq<byte>, data: seq<byte>, start: nat, end: nat)
    requires start <= end <= |data| && forall k :: start <= k < end ==> Plain(data[k])
    ensures message + Escape(data[..start]) + data[start..end] == message + Escape(data[..end])
  {
    hide Escape;
    EscapePlain(data[start..end]);
    EscapeConcat(data[..start], data[start..end]);
    assert data[..start] + data[start..end] == data[..end];
  }

  lemma EscapePush(data: seq<byte>, b: byte)
    ensures Escape(data + [b]) == Escape(data) + EscapeByte(b)
  {
    assert (data + [b])[..|data|] == data;
  }

  lemma {:induction false} EscapePlain(data: seq<byte>)
    requires forall i :: 0 <= i < |data| ==> Plain(data[i])
    ensures Escape(data) == data
  {
    if data != [] {
      EscapePlain(data[..|data| - 1]);
    }
  }

  // How the data is cut into pieces makes no difference to what is sent.
  lemma {:induction false} EscapeConcat(a: seq<byte>, b: seq<byte>)
    ensures Escape(a + b) == Escape(a) + Escape(b)
    decreases |b|
  {
    hide EscapeByte;
    if b == [] {
      assert a + b == a;
    } else {
      var init := b[..|b| - 1];
      EscapeConcat(a, init);
      assert (a + b)[..|a + b| - 1] == a + init;
    }
  }

  predicate Octal(b: byte) {
    48 <= b < 56
  }

  // What a client does with it.
  function Unescape(text: seq<byte>): seq<byte> {
    if text == [] then []
    else if text[0] == 92 && |text| >= 4 && Octal(text[1]) && Octal(text[2]) && Octal(text[3])
            && text[1] < 52 then
      [(text[1] - 48) * 64 + (text[2] - 48) * 8 + (text[3] - 48)] + Unescape(text[4..])
    else [text[0]] + Unescape(text[1..])
  }

  lemma UnescapeByte(b: byte, rest: seq<byte>)
    ensures Unescape(EscapeByte(b) + rest) == [b] + Unescape(rest)
  {
    var text := EscapeByte(b) + rest;
    if Plain(b) {
      assert text[1..] == rest;
    } else {
      assert text[4..] == rest;
      assert b / 64 * 64 + b / 8 % 8 * 8 + b % 8 == b;
    }
  }

  // A byte below space or a backslash is a backslash and three octal digits, and any other is itself; so a
  // message is one line whatever a pane writes (EscapeOneLine).
  lemma EscapeForm(data: seq<byte>, b: byte)
    ensures Escape(data) <= Escape(data + [b])
    ensures var text := Escape(data + [b])[|Escape(data)|..];
      if 32 <= b && b != 92 then text == [b]
      else |text| == 4 && text[0] == 92 && (forall k :: 1 <= k < 4 ==> 48 <= text[k] < 56)
           && (text[1] - 48) * 64 + (text[2] - 48) * 8 + (text[3] - 48) == b
  {
    hide Escape, EscapeByte;
    EscapePush(data, b);
    EscapedByte(b);
    assert Escape(data + [b])[|Escape(data)|..] == EscapeByte(b);
  }

  lemma EscapedByte(b: byte)
    ensures var text := EscapeByte(b);
      if 32 <= b && b != 92 then text == [b]
      else |text| == 4 && text[0] == 92 && 48 <= text[1] < 56 && 48 <= text[2] < 56 && 48 <= text[3] < 56
           && (text[1] - 48) * 64 + (text[2] - 48) * 8 + (text[3] - 48) == b
  {
    assert b / 64 * 64 + b / 8 % 8 * 8 + b % 8 == b;
  }

  lemma {:induction false} EscapeOneLine(data: seq<byte>)
    ensures forall i :: 0 <= i < |Escape(data)| ==> Escape(data)[i] >= 32
  {
    hide EscapeByte;
    if data != [] {
      EscapeOneLine(data[..|data| - 1]);
      EscapedByte(data[|data| - 1]);
    }
  }

  // Nothing is lost by escaping: the data can be read back, wherever the message is cut.
  lemma {:induction false} EscapeRoundTrip(data: seq<byte>, rest: seq<byte>)
    ensures Unescape(Escape(data) + rest) == data + Unescape(rest)
    decreases |data|
  {
    hide EscapeByte, Unescape;
    if data == [] {
      assert Escape(data) + rest == rest;
    } else {
      var init, last := data[..|data| - 1], data[|data| - 1];
      assert Escape(data) + rest == Escape(init) + (EscapeByte(last) + rest);
      EscapeRoundTrip(init, EscapeByte(last) + rest);
      UnescapeByte(last, rest);
      assert init + ([last] + Unescape(rest)) == data + Unescape(rest);
    }
  }
}
