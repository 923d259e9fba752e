/**
 * The client's binary frames and their decoding (`ClientMessage::from_bytes`,
 * server/src/main.rs:925-1010).
 */
module Wire {
  import opened Wrappers
  import opened Text
  import opened Gestures

  newtype byte = x: int | 0 <= x < 256

  datatype InputMode = Standard | Braille

  datatype ClientMessage =
    | GestureEvent(gesture: Gesture)
    | BrailleInput(combination: nat)
    | InputModeChange(mode: InputMode)

  /** Every way a frame can be rejected, with the number the source formats into its message. */
  datatype DecodeError =
    | EmptyMessage
    | GestureTooShort(length: nat)
    | SwipeWithoutDirections
    | InvalidSwipeDirection(direction: byte)
    | UnknownShape(shape: byte)
    | BrailleLength(length: nat)
    | InputModeLength(length: nat)
    | InvalidInputMode(mode: byte)
    | UnknownIdentifier(identifier: byte)
  {
    /** The text `from_bytes` returns. */
    function Message(): string {
      match this
      case EmptyMessage => "empty message"
      case GestureTooShort(n) => NatToString(n) + " bytes is not enough to define a gesture client message."
      case SwipeWithoutDirections => "Received a swipe gesture without swipe directions"
      case InvalidSwipeDirection(d) => "Invalid swipe direction " + NatToString(d as nat)
      case UnknownShape(s) => NatToString(s as nat) + " is an unknown gesture shape identifier"
      case BrailleLength(n) => "Invalid byte count for a braille client message (" + NatToString(n) + ")."
      case InputModeLength(n) => "Invalid byte count (" + NatToString(n) + ") for an input mode client message."
      case InvalidInputMode(m) => "Invalid input mode identifier (" + NatToString(m as nat) + ") in a client message"
      case UnknownIdentifier(i) => "Unknown client message identifier " + NatToString(i as nat) + "."
    }
  }

  function DirectionOf(b: byte): Option<Direction> {
    if b == 0 then Some(Left)
    else if b == 1 then Some(Right)
    else if b == 2 then Some(Up)
    else if b == 3 then Some(Down)
    else None
  }

  /** The swipe directions from index 6 on; the first byte that names none is the error. */
  function DecodeDirections(bs: seq<byte>): Result<seq<Direction>, byte> {
    if bs == [] then Success([])
    else match DirectionOf(bs[0])
      case None => Failure(bs[0])
      case Some(d) =>
        match DecodeDirections(bs[1..])
        case Success(rest) => Success([d] + rest)
        case Failure(b) => Failure(b)
  }

  /** `ClientMessage::from_bytes`. */
  function FromBytes(bytes: seq<byte>): Result<ClientMessage, DecodeError> {
    if |bytes| == 0 then Failure(EmptyMessage)
    else if bytes[0] == 0 then
      if |bytes| < 6 then Failure(GestureTooShort(|bytes|))
      else
        var shape: Result<GestureShape, DecodeError> :=
          if bytes[5] == 0 then
            if |bytes| < 7 then Failure(SwipeWithoutDirections)
            else match DecodeDirections(bytes[6..])
              case Success(ds) => Success(Swipe(ds))
              case Failure(b) => Failure(InvalidSwipeDirection(b))
          else if bytes[5] == 1 then Success(Tap)
          else if bytes[5] == 2 then Success(Touch)
          else Failure(UnknownShape(bytes[5]));
        match shape
        case Success(s) =>
          Success(GestureEvent(Gesture(bytes[1] as int, bytes[2] as int, bytes[3] as int, bytes[4] as int, s)))
        case Failure(e) => Failure(e)
    else if bytes[0] == 1 then
      if |bytes| != 2 then Failure(BrailleLength(|bytes|))
      else Success(BrailleInput(bytes[1] as nat))
    else if bytes[0] == 2 then
      if |bytes| != 2 then Failure(InputModeLength(|bytes|))
      else if bytes[1] == 0 then Success(InputModeChange(Standard))
      else if bytes[1] == 1 then Success(InputModeChange(Braille))
      else Failure(InvalidInputMode(bytes[1]))
    else Failure(UnknownIdentifier(bytes[0]))
  }

  // ---------------------------------------------------------------------------------------
  // The client's frame layout, as a reference encoder
  // ---------------------------------------------------------------------------------------

  function DirectionByte(d: Direction): byte {
    match d
    case Left => 0
    case Right => 1
    case Up => 2
    case Down => 3
  }

  function DirectionBytes(ds: seq<Direction>): (bs: seq<byte>)
    ensures |bs| == |ds| && forall i :: 0 <= i < |ds| ==> bs[i] == DirectionByte(ds[i])
  {
    seq(|ds|, i requires 0 <= i < |ds| => DirectionByte(ds[i]))
  }

  predicate IsByte(n: int) {
    0 <= n < 256
  }

  /** The messages the frame layout can carry. */
  predicate Encodable(m: ClientMessage) {
    match m
    case GestureEvent(g) =>
      && IsByte(g.fingerCount) && IsByte(g.modifierCount) && IsByte(g.startX) && IsByte(g.startY)
      && (g.shape.Swipe? ==> g.shape.directions != [])
    case BrailleInput(c) => IsByte(c)
    case InputModeChange(_) => true
  }

  /** The frame for a message: tag, then the gesture header and shape, or one value byte. */
  function Encode(m: ClientMessage): seq<byte>
    requires Encodable(m)
  {
    match m
    case GestureEvent(g) =>
      var header := [0, g.fingerCount as byte, g.modifierCount as byte, g.startX as byte, g.startY as byte];
      (match g.shape
       case Swipe(ds) => header + [0] + DirectionBytes(ds)
       case Tap => header + [1]
       case Touch => header + [2])
    case BrailleInput(c) => [1, c as byte]
    case InputModeChange(mode) => [2, if mode == Standard then 0 else 1]
  }

  // ---------------------------------------------------------------------------------------
  // What the decoder accepts
  // ---------------------------------------------------------------------------------------

  /**
   * The directions decode exactly when every byte is at most 3, each to its own direction;
   * otherwise the error is the first byte above 3.
   */
  lemma {:induction false} DecodeDirectionsMeaning(bs: seq<byte>)
    ensures DecodeDirections(bs).Success? <==> forall i :: 0 <= i < |bs| ==> bs[i] <= 3
    ensures DecodeDirections(bs).Success? ==>
      |DecodeDirections(bs).value| == |bs|
      && forall i :: 0 <= i < |bs| ==> DirectionByte(DecodeDirections(bs).value[i]) == bs[i]
    ensures DecodeDirections(bs).Failure? ==>
      exists i :: 0 <= i < |bs| && bs[i] == DecodeDirections(bs).error && bs[i] > 3
                  && forall k :: 0 <= k < i ==> bs[k] <= 3
  {
    if bs != [] {
      DecodeDirectionsMeaning(bs[1..]);
      assert forall i :: 1 <= i < |bs| ==> bs[i] == bs[1..][i - 1];
      match DecodeDirections(bs[1..])
      case Success(rest) =>
      case Failure(b) =>
        if DirectionOf(bs[0]).Some? {
          var i :| 0 <= i < |bs[1..]| && bs[1..][i] == b && bs[1..][i] > 3 && forall k :: 0 <= k < i ==> bs[1..][k] <= 3;
          assert bs[i + 1] == b;
          assert forall k :: 0 <= k < i + 1 ==> bs[k] <= 3 by {
            forall k | 0 <= k < i + 1 ensures bs[k] <= 3 {
              if k > 0 { assert bs[k] == bs[1..][k - 1]; }
            }
          }
        }
    }
  }

  lemma DecodeDirectionBytes(ds: seq<Direction>)
    ensures DecodeDirections(DirectionBytes(ds)) == Success(ds)
  {
    var bs := DirectionBytes(ds);
    DecodeDirectionsMeaning(bs);
    var r := DecodeDirections(bs).value;
    forall i | 0 <= i < |ds| ensures r[i] == ds[i] {
      assert DirectionByte(r[i]) == bs[i] == DirectionByte(ds[i]);
    }
    assert r == ds;
  }

  /** Decoding a frame the client lays out gives back the message. */
  lemma DecodeEncode(m: ClientMessage)
    requires Encodable(m)
    ensures FromBytes(Encode(m)) == Success(m)
  {
    if m.GestureEvent? && m.gesture.shape.Swipe? {
      var ds := m.gesture.shape.directions;
      var bs := Encode(m);
      assert bs[6..] == DirectionBytes(ds);
      DecodeDirectionBytes(ds);
    }
  }

  /**
   * Conversely, an accepted frame carries an encodable message that the client lays out
   * as the same bytes, except that a tap or touch frame may have trailing bytes the
   * decoder ignores.
   */
  lemma EncodeDecode(bytes: seq<byte>)
    requires FromBytes(bytes).Success?
    ensures var m := FromBytes(bytes).value;
      && Encodable(m)
      && (if m.GestureEvent? && !m.gesture.shape.Swipe? then Encode(m) == bytes[..6] else Encode(m) == bytes)
  {
    var m := FromBytes(bytes).value;
    if bytes[0] == 0 && bytes[5] == 0 {
      var ds := m.gesture.shape.directions;
      DecodeDirectionsMeaning(bytes[6..]);
      assert DirectionBytes(ds) == bytes[6..];
      assert bytes == bytes[..6] + bytes[6..];
    } else if bytes[0] == 0 {
      assert Encode(m) == bytes[..6];
    } else {
      assert bytes == [bytes[0], bytes[1]];
    }
  }

  /**
   * The rejections: empty input, unknown tags, a gesture header under six bytes, a swipe
   * without directions or with a byte above 3, an unknown shape, and a braille or mode
   * frame that is not exactly two bytes or carries a mode other than 0 or 1.
   */
  lemma Rejections(bytes: seq<byte>)
    ensures |bytes| == 0 ==> FromBytes(bytes) == Failure(EmptyMessage)
    ensures |bytes| > 0 && bytes[0] > 2 ==> FromBytes(bytes) == Failure(UnknownIdentifier(bytes[0]))
    ensures |bytes| > 0 && bytes[0] == 0 && |bytes| < 6 ==> FromBytes(bytes) == Failure(GestureTooShort(|bytes|))
    ensures |bytes| == 6 && bytes[0] == 0 && bytes[5] == 0 ==> FromBytes(bytes) == Failure(SwipeWithoutDirections)
    ensures |bytes| > 6 && bytes[0] == 0 && bytes[5] == 0 && (exists i :: 6 <= i < |bytes| && bytes[i] > 3) ==>
      FromBytes(bytes).Failure? && FromBytes(bytes).error.InvalidSwipeDirection?
    ensures |bytes| >= 6 && bytes[0] == 0 && bytes[5] > 2 ==> FromBytes(bytes) == Failure(UnknownShape(bytes[5]))
    ensures |bytes| > 0 && bytes[0] == 1 && |bytes| != 2 ==> FromBytes(bytes) == Failure(BrailleLength(|bytes|))
    ensures |bytes| > 0 && bytes[0] == 2 && |bytes| != 2 ==> FromBytes(bytes) == Failure(InputModeLength(|bytes|))
    ensures |bytes| == 2 && bytes[0] == 2 && bytes[1] > 1 ==> FromBytes(bytes) == Failure(InvalidInputMode(bytes[1]))
  {
    if |bytes| > 6 && bytes[0] == 0 && bytes[5] == 0 && (exists i :: 6 <= i < |bytes| && bytes[i] > 3) {
      var i :| 6 <= i < |bytes| && bytes[i] > 3;
      DecodeDirectionsMeaning(bytes[6..]);
      assert bytes[6..][i - 6] == bytes[i];
    }
  }

  /** A braille frame carries any byte value, without a range check. */
  lemma BrailleUnchecked(c: byte)
    ensures FromBytes([1, c]) == Success(BrailleInput(c as nat))
  {
  }

  /** Tap and touch frames ignore whatever follows the shape byte. */
  lemma TrailingBytesIgnored(bytes: seq<byte>, extra: seq<byte>)
    requires |bytes| == 6 && bytes[0] == 0 && (bytes[5] == 1 || bytes[5] == 2)
    ensures FromBytes(bytes + extra) == FromBytes(bytes)
  {
  }
}
