/**
 * Rooms and the transport channels they fan out on: routing is by an injective
 * channel name, checked again against the room inside the envelope.
 */
module Rooms {
  import opened Wrappers

  /** The 128 bits of a UUID as its sixteen bytes. */
  type Uuid = s: seq<nat> | |s| == 16 && (forall i :: 0 <= i < |s| ==> s[i] < 256) witness Zeroes(16)

  function Zeroes(n: nat): (r: seq<nat>)
    ensures |r| == n && forall i :: 0 <= i < |r| ==> r[i] == 0
  {
    seq(n, _ => 0)
  }

  const Nil: Uuid := Zeroes(16)

  datatype Room = Room(tenant: Uuid, board: Uuid)

  datatype Message<Payload> = Message(room: Room, payload: Payload)

  predicate Complete(room: Room) {
    room.tenant != Nil && room.board != Nil
  }

  const HEX: string := "0123456789abcdef"
  const PREFIX: string := "collabboard.rt.v1"

  /** Two hexadecimal digits for each byte, a dash after bytes 4, 6, 8 and 10. */
  function Digits(bytes: seq<nat>): (r: string)
    requires forall i :: 0 <= i < |bytes| ==> bytes[i] < 256
    ensures |r| == 2 * |bytes|
    ensures forall i :: 0 <= i < |bytes| ==> r[2 * i] == HEX[bytes[i] / 16] && r[2 * i + 1] == HEX[bytes[i] % 16]
  {
    if bytes == [] then ""
    else
      var last := |bytes| - 1;
      Digits(bytes[..last]) + [HEX[bytes[last] / 16], HEX[bytes[last] % 16]]
  }

  function Text(id: Uuid): (r: string)
    ensures |r| == 36
  {
    Digits(id[..4]) + "-" + Digits(id[4..6]) + "-" + Digits(id[6..8]) + "-" + Digits(id[8..10]) + "-" + Digits(id[10..])
  }

  function Channel(room: Room): string {
    PREFIX + "." + Text(room.tenant) + "." + Text(room.board)
  }

  lemma {:induction false} DigitsInjective(a: seq<nat>, b: seq<nat>)
    requires |a| == |b|
    requires forall i :: 0 <= i < |a| ==> a[i] < 256 && b[i] < 256
    requires Digits(a) == Digits(b)
    ensures a == b
  {
    forall i | 0 <= i < |a| ensures a[i] == b[i] {
      assert HEX[a[i] / 16] == Digits(a)[2 * i] == HEX[b[i] / 16];
      assert HEX[a[i] % 16] == Digits(a)[2 * i + 1] == HEX[b[i] % 16];
      HexInjective(a[i] / 16, b[i] / 16);
      HexInjective(a[i] % 16, b[i] % 16);
    }
  }

  lemma HexInjective(i: nat, j: nat)
    requires i < 16 && j < 16 && HEX[i] == HEX[j]
    ensures i == j
  {
  }

  lemma TextParts(id: Uuid)
    ensures var t := Text(id);
            && t[..8] == Digits(id[..4]) && t[9..13] == Digits(id[4..6]) && t[14..18] == Digits(id[6..8])
            && t[19..23] == Digits(id[8..10]) && t[24..] == Digits(id[10..])
  {
    hide Digits;
  }

  lemma TextInjective(a: Uuid, b: Uuid)
    requires Text(a) == Text(b)
    ensures a == b
  {
    hide Text, Digits;
    TextParts(a);
    TextParts(b);
    DigitsInjective(a[..4], b[..4]);
    DigitsInjective(a[4..6], b[4..6]);
    DigitsInjective(a[6..8], b[6..8]);
    DigitsInjective(a[8..10], b[8..10]);
    DigitsInjective(a[10..], b[10..]);
    FromParts(a, b);
  }

  lemma FromParts(a: Uuid, b: Uuid)
    requires a[..4] == b[..4] && a[4..6] == b[4..6] && a[6..8] == b[6..8] && a[8..10] == b[8..10] && a[10..] == b[10..]
    ensures a == b
  {
    forall i | 0 <= i < 16 ensures a[i] == b[i] {
      if i < 4 { assert a[..4][i] == b[..4][i]; }
      else if i < 6 { assert a[4..6][i - 4] == b[4..6][i - 4]; }
      else if i < 8 { assert a[6..8][i - 6] == b[6..8][i - 6]; }
      else if i < 10 { assert a[8..10][i - 8] == b[8..10][i - 8]; }
      else { assert a[10..][i - 10] == b[10..][i - 10]; }
    }
  }

  /** Two rooms never share a channel. */
  lemma ChannelInjective(r: Room, s: Room)
    ensures Channel(r) == Channel(s) <==> r == s
  {
    if Channel(r) == Channel(s) {
      var n := |PREFIX|;
      assert Channel(r)[n + 1..n + 37] == Text(r.tenant) && Channel(s)[n + 1..n + 37] == Text(s.tenant);
      assert Channel(r)[n + 38..] == Text(r.board) && Channel(s)[n + 38..] == Text(s.board);
      TextInjective(r.tenant, s.tenant);
      TextInjective(r.board, s.board);
    }
  }
}
