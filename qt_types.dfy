/** Value types shared by every notification engine: Qt's fixed-width integers,
    QString ordering (by UTF-16 code units), key-ordered QMap<QString, QString>, the close-reason enum and
    the three engine signals. */
module QtTypes {

  datatype Option<+T> = None | Some(value: T)

  /** C++ `uint` (32 bits, unsigned, wraps modulo 2^32). */
  const UINT32_MODULUS: int := 0x1_0000_0000
  type uint32 = x: int | 0 <= x < 0x1_0000_0000

  /** Java `int` (32 bits, two's complement). */
  const INT32_MIN: int := -0x8000_0000
  const INT32_MAX: int := 0x7FFF_FFFF
  type int32 = x: int | -0x8000_0000 <= x < 0x8000_0000

  /** The value a C++ `uint` holds after an assignment of the mathematical value `x`. */
  function WrapUint32(x: int): (r: uint32)
    ensures (r - x) % UINT32_MODULUS == 0
    ensures 0 <= x < UINT32_MODULUS ==> r == x
  {
    x % UINT32_MODULUS
  }

  /** The value a Java `int` holds after an arithmetic operation whose exact result is `x`. */
  function WrapInt32(x: int): (r: int32)
    ensures (r - x) % UINT32_MODULUS == 0
    ensures INT32_MIN <= x <= INT32_MAX ==> r == x
  {
    (x + 0x8000_0000) % UINT32_MODULUS - 0x8000_0000
  }

  lemma ModShift(y: int, q: int)
    ensures (y - q * UINT32_MODULUS) % UINT32_MODULUS == y % UINT32_MODULUS
  {
    var d := y / UINT32_MODULUS;
    assert y == d * UINT32_MODULUS + y % UINT32_MODULUS;
    assert y - q * UINT32_MODULUS == (d - q) * UINT32_MODULUS + y % UINT32_MODULUS;
  }

  /** Wrapping an intermediate result changes nothing: adding to a wrapped int gives
      what adding to the exact value would, once wrapped. */
  lemma WrapInt32Absorbs(x: int, k: int)
    ensures WrapInt32(WrapInt32(x) + k) == WrapInt32(x + k)
  {
    var q := (x + 0x8000_0000) / UINT32_MODULUS;
    assert WrapInt32(x) == x - q * UINT32_MODULUS;
    ModShift(x + k + 0x8000_0000, q);
    assert WrapInt32(x) + k + 0x8000_0000 == (x + k + 0x8000_0000) - q * UINT32_MODULUS;
  }

  /** Regrouping a concatenation, proved once for all sequences so that proofs about
      long literal markup need not compare it element by element. */
  lemma ConcatAssoc<T>(a: seq<T>, b: seq<T>, c: seq<T>)
    ensures a + b + c == a + (b + c)
  {
  }

  /** The UTF-16 code units of one character: the character itself below U+10000,
      otherwise its surrogate pair. */
  function Utf16Units(c: char): (units: seq<int>)
    ensures 1 <= |units| <= 2
    ensures |units| == 2 <==> c as int >= 0x1_0000
    ensures 0xD800 <= units[0] < 0xDC00 <==> |units| == 2
  {
    if c as int < 0x1_0000 then [c as int]
    else
      var v := c as int - 0x1_0000;
      [0xD800 + v / 0x400, 0xDC00 + v % 0x400]
  }

  /** A string as QString stores it: its UTF-16 code units. */
  function Utf16(s: string): (units: seq<int>)
    ensures |s| <= |units| <= 2 * |s|
  {
    if s == [] then [] else Utf16Units(s[0]) + Utf16(s[1..])
  }

  /** Lexicographic order on code-unit sequences; a proper prefix is smaller. */
  predicate UnitsLess(a: seq<int>, b: seq<int>)
    decreases |a|
  {
    if |a| == 0 then |b| > 0
    else if |b| == 0 then false
    else a[0] < b[0] || (a[0] == b[0] && UnitsLess(a[1..], b[1..]))
  }

  /** QString's operator<: lexicographic on UTF-16 code units. */
  predicate StrLess(a: string, b: string)
  {
    UnitsLess(Utf16(a), Utf16(b))
  }

  /** Code-unit order is not code-point order: U+1F600 comes after U+FFFD as a
      character, but its high surrogate 0xD83D sorts before 0xFFFD, so a QMap iterates
      the emoji key first. */
  lemma StrLessIsNotCodePointOrder()
    ensures '\U{1F600}' > '\U{FFFD}'
    ensures StrLess("\U{1F600}", "\U{FFFD}") && !StrLess("\U{FFFD}", "\U{1F600}")
  {
    assert Utf16("\U{1F600}") == [0xD83D, 0xDE00];
    assert Utf16("\U{FFFD}") == [0xFFFD];
  }

  /** The entries of a QMap<QString, QString> in iteration order: strictly ascending keys. */
  predicate IsKeyOrdered(entries: seq<(string, string)>)
  {
    forall i, j :: 0 <= i < j < |entries| ==> StrLess(entries[i].0, entries[j].0)
  }

  type QStringMap = m: seq<(string, string)> | IsKeyOrdered(m) witness []

  /** QNotifications::ClosedReason, declared zero-based. */
  datatype ClosedReason = Expired | Dismissed | Closed | Undefined

  /** The integer value of each enumerator. */
  function ReasonCode(r: ClosedReason): (c: uint32)
    ensures c < 4
  {
    match r
    case Expired => 0
    case Dismissed => 1
    case Closed => 2
    case Undefined => 3
  }

  /** Reading an integer back as a ClosedReason; codes past the last enumerator name none. */
  function ReasonOfCode(c: uint32): (r: Option<ClosedReason>)
    ensures r.Some? <==> c < 4
  {
    if c == 0 then Some(Expired)
    else if c == 1 then Some(Dismissed)
    else if c == 2 then Some(Closed)
    else if c == 3 then Some(Undefined)
    else None
  }

  lemma ReasonCodeRoundTrip(r: ClosedReason, c: uint32)
    ensures ReasonOfCode(ReasonCode(r)) == Some(r)
    ensures ReasonOfCode(c).Some? ==> ReasonCode(ReasonOfCode(c).value) == c
  {
  }

  /** The signals of QPlatformNotificationEngine, as the engines emit them. The close
      reason travels as the `uint` the engine signal declares. */
  datatype EngineEvent =
    | ActionInvoked(id: uint32, actionKey: string)
    | NotificationClosed(id: uint32, reason: uint32)
    | NotificationClicked(id: uint32)
}
