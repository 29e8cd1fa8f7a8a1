/**
 * The 4-byte UART header: the host writes it in `send_data_uart`, the board
 * reads it in its receive callback before the data that follows.
 * Byte 0 names the destination buffer, byte 1 is the encryption flag and
 * bytes 2 and 3 hold the data length, low byte first.
 */
module Protocol {
  import opened Words

  type Byte = b: int | 0 <= b < 256

  /** The board's receive buffers, in the order of their codes 0 .. 7. */
  datatype Slot = Ciphertext | AssociatedData | Message | Nonce | Key | Seed | Batch | FixedKey

  /** The code of a buffer: its position in the list above. */
  function Code(s: Slot): (c: Byte)
    ensures c < 8
  {
    match s
    case Ciphertext => 0
    case AssociatedData => 1
    case Message => 2
    case Nonce => 3
    case Key => 4
    case Seed => 5
    case Batch => 6
    case FixedKey => 7
  }

  /** The name the host uses for a buffer (`dest`). */
  function Name(s: Slot): string
  {
    match s
    case Ciphertext => "c"
    case AssociatedData => "ad"
    case Message => "m"
    case Nonce => "npub"
    case Key => "k"
    case Seed => "s"
    case Batch => "N"
    case FixedKey => "f"
  }

  /** `MAX_LEN`, the size in bytes of the board's message and associated-data buffers. */
  const MaxLen: nat := 256

  /** `CRYPTO_ABYTES`, the Spook tag length in bytes, by which the ciphertext buffer is longer. */
  const TagBytes: nat := 16

  /**
   * The transfers that fit the board's buffers: a nonce or seed of four
   * words, a masked key of 4·D words, a batch size or fixed-key flag of one
   * word, and at most `MAX_LEN` bytes of message or associated data, 16 more
   * of ciphertext. The board does not check the length it is sent, so a
   * longer transfer writes past its buffer; the contents of the three AEAD
   * buffers are not modelled.
   */
  predicate Fits(s: Slot, ws: seq<Word>, d: nat)
  {
    match s
    case Nonce => |ws| == 4
    case Seed => |ws| == 4
    case Key => |ws| == 4 * d
    case Batch => |ws| == 1
    case FixedKey => |ws| == 1
    case Ciphertext => 4 * |ws| <= MaxLen + TagBytes
    case AssociatedData => 4 * |ws| <= MaxLen
    case Message => 4 * |ws| <= MaxLen
  }

  /** The size in bytes of the board's buffer for slot s, as declared in `main.c`. */
  function BufferBytes(s: Slot, d: nat): nat
  {
    match s
    case Ciphertext => MaxLen + TagBytes
    case AssociatedData => MaxLen
    case Message => MaxLen
    case Nonce => 16
    case Key => 16 * d
    case Seed => 16
    case Batch => 4
    case FixedKey => 4
  }

  /**
   * A transfer fits exactly when its bytes fit the buffer it is sent to, and
   * for every buffer but the AEAD ones fill it completely.
   */
  lemma FitsBuffer(s: Slot, ws: seq<Word>, d: nat)
    ensures Fits(s, ws, d) ==> 4 * |ws| <= BufferBytes(s, d)
    ensures s in {Ciphertext, AssociatedData, Message} ==> (Fits(s, ws, d) <==> 4 * |ws| <= BufferBytes(s, d))
    ensures s !in {Ciphertext, AssociatedData, Message} ==> (Fits(s, ws, d) <==> 4 * |ws| == BufferBytes(s, d))
  {
  }

  // ---------------------------------------------------------------------
  // Host side: send_data_uart
  // ---------------------------------------------------------------------

  /**
   * Byte 0 of the header. An unknown name leaves the byte at the zero of
   * `np.zeros`, which is the code of the ciphertext buffer.
   */
  function DestCode(dest: string): (c: Byte)
    ensures c < 8
  {
    if dest == "c" then 0
    else if dest == "ad" then 1
    else if dest == "m" then 2
    else if dest == "npub" then 3
    else if dest == "k" then 4
    else if dest == "s" then 5
    else if dest == "N" then 6
    else if dest == "f" then 7
    else 0
  }

  /**
   * The header of a transfer of `len` bytes. Each field is stored into an
   * unsigned 8-bit array, which keeps it modulo 256: so does the high
   * length byte `len // 256` of a transfer of 64 KiB or more.
   */
  function Header(dest: string, encFlag: int, len: nat): (h: seq<Byte>)
    ensures |h| == 4
    ensures HeaderLength(h) == len % 65536
  {
    LengthBytes(len);
    [DestCode(dest), encFlag % 256, len % 256, (len / 256) % 256]
  }

  // ---------------------------------------------------------------------
  // Board side: the header branch of the receive callback
  // ---------------------------------------------------------------------

  /** `header[2] + header[3]*256`: the number of data bytes that follow. */
  function HeaderLength(h: seq<Byte>): (len: nat)
    requires |h| == 4
    ensures len < 65536
    ensures len % 256 == h[2] as int && len / 256 == h[3] as int
  {
    h[2] as int + h[3] as int * 256
  }

  /** The buffer byte 0 selects; an unknown code leaves the previous destination in place. */
  function Dispatch(code: Byte, current: Slot): (s: Slot)
    ensures code < 8 ==> Code(s) == code
    ensures code >= 8 ==> s == current
  {
    if code == 0 then Ciphertext
    else if code == 1 then AssociatedData
    else if code == 2 then Message
    else if code == 3 then Nonce
    else if code == 4 then Key
    else if code == 5 then Seed
    else if code == 6 then Batch
    else if code == 7 then FixedKey
    else current
  }

  /** Distinct buffers have distinct codes and distinct names. */
  lemma CodesDistinct(s: Slot, t: Slot)
    ensures Code(s) == Code(t) <==> s == t
    ensures Name(s) == Name(t) <==> s == t
  {
    if s != t {
      assert Name(s)[0] != Name(t)[0] || |Name(s)| != |Name(t)|;
    }
  }

  /** The host writes the code of the buffer it names. */
  lemma DestCodeOfName(s: Slot)
    ensures DestCode(Name(s)) == Code(s)
  {
    match s
    case Ciphertext =>
    case AssociatedData =>
    case Message =>
    case Nonce =>
    case Key =>
    case Seed =>
    case Batch =>
    case FixedKey =>
  }

  /** Low and high length byte together give the length modulo 65536. */
  lemma LengthBytes(len: nat)
    ensures len % 256 + ((len / 256) % 256) * 256 == len % 65536
  {
    var lo, q := len % 256, len / 256;
    var hi, top := q % 256, q / 256;
    assert len == 256 * q + lo;
    assert q == 256 * top + hi;
    SplitMod(len, top, 256 * hi + lo);
  }

  /** A remainder below 65536 is the remainder modulo 65536. */
  lemma SplitMod(x: int, q: int, r: int)
    requires x == 65536 * q + r && 0 <= r < 65536
    ensures x % 65536 == r
  {
  }

  /**
   * Round trip: the board decodes a host header into the buffer the host
   * named, the flag the host sent, and the length modulo 65536, which is
   * the length itself below 64 KiB.
   */
  lemma HeaderRoundTrip(s: Slot, encFlag: int, len: nat, current: Slot)
    requires 0 <= encFlag < 256
    ensures var h := Header(Name(s), encFlag, len);
            && Dispatch(h[0], current) == s
            && h[1] == encFlag
            && HeaderLength(h) == len % 65536
            && (len < 65536 ==> HeaderLength(h) == len)
  {
    var h := Header(Name(s), encFlag, len);
    DestCodeOfName(s);
    CodesDistinct(s, Dispatch(h[0], current));
    LengthBytes(len);
  }

  /** The board selects the buffer the host named and reads the flag the host sent. */
  lemma HeaderNamesSlot(s: Slot, encFlag: int, len: nat, current: Slot)
    requires 0 <= encFlag < 256
    ensures Dispatch(Header(Name(s), encFlag, len)[0], current) == s
    ensures Header(Name(s), encFlag, len)[0] == Code(s) && Header(Name(s), encFlag, len)[1] == encFlag
  {
    DestCodeOfName(s);
    CodesDistinct(s, Dispatch(Code(s), current));
  }

  /** A header with an unknown name sends its data to the ciphertext buffer. */
  lemma UnknownNameIsCiphertext(dest: string, encFlag: int, len: nat, current: Slot)
    requires forall s: Slot :: dest != Name(s)
    ensures Dispatch(Header(dest, encFlag, len)[0], current) == Ciphertext
  {
    assert dest != Name(AssociatedData) && dest != Name(Message) && dest != Name(Nonce);
    assert dest != Name(Key) && dest != Name(Seed) && dest != Name(Batch) && dest != Name(FixedKey);
  }
}
