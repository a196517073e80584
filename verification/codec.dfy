/** The external forms of an address: text, JSON and binary (mailbox.go:57-151, 222-403). */
module AddressCodec {
  import opened Wrappers
  import opened Ids
  import opened Decimal
  import opened Varint

  const LT: Byte := '<' as int
  const GT: Byte := '>' as int
  const COLON: Byte := ':' as int
  const QUOTE: Byte := '"' as int
  const X: Byte := 'X' as int

  /** What an address may hold in its mailbox field. A noMailbox is held by
      value after unmarshalling an X, and by pointer after finding no open
      local mailbox. */
  datatype Cached = Unresolved | Local(id: MailboxID) | Remote(id: MailboxID)
                  | NoMailbox(id: MailboxID) | NoMailboxPointer(id: MailboxID)

  /** The part of the connection server that resolves ids: its own node, the
      mailboxes open there, and the nodes it has a link manager for. */
  datatype Server = Server(thisNode: NodeID, open: set<MailboxID>, remotes: set<NodeID>)

  datatype Error = IllegalNilSlice | IllegalAddressFormat | OtherError

  datatype Outcome = Done(bytes: seq<Byte>) | Failed(error: Error) | Panicked

  /** What unmarshalling found: an id, the closed mailbox X, or an error. */
  datatype Parsed = Id(id: MailboxID) | Nobody | Bad(error: Error)

  /** getAddress without a cached mailbox; None is a panic. */
  function Resolve(c: Option<Server>, id: MailboxID): Option<Cached> {
    if c.None? then None
    else if NodeOf(id) == c.value.thisNode then
      Some(if id in c.value.open then Local(id) else NoMailboxPointer(id))
    else if NodeOf(id) in c.value.remotes then Some(Remote(id))
    else None
  }

  function Cache(m: Cached, c: Option<Server>, id: MailboxID): Option<Cached> {
    if m.Unresolved? then Resolve(c, id) else Some(m)
  }

  // ---------------------------------------------------------------- marshalling

  function IdText(id: MailboxID): seq<Byte> {
    [LT] + Digits(NodeOf(id)) + [COLON] + Digits(MailboxOnly(id)) + [GT]
  }

  function Text(m: Cached): Option<seq<Byte>> {
    match m
    case Local(id) => Some(IdText(id))
    case Remote(id) => Some(IdText(id))
    case NoMailbox(_) => Some([X])
    case _ => None
  }

  function Binary(m: Cached): Option<seq<Byte>> {
    match m
    case Local(id) => Some([LT] + PutUvarint(id))
    case Remote(id) => Some([LT] + PutUvarint(id))
    case NoMailbox(_) => Some([X])
    case _ => None
  }

  /** The first byte, when it is a, becomes b. */
  function SwapFirst(s: seq<Byte>, a: Byte, b: Byte): seq<Byte> {
    if s != [] && s[0] == a then s[0 := b] else s
  }

  function SwapLast(s: seq<Byte>, a: Byte, b: Byte): seq<Byte> {
    if s != [] && s[|s| - 1] == a then s[|s| - 1 := b] else s
  }

  function Quote(s: seq<Byte>): seq<Byte> { SwapLast(SwapFirst(s, LT, QUOTE), GT, QUOTE) }

  function Unquote(s: seq<Byte>): seq<Byte> { SwapLast(SwapFirst(s, QUOTE, LT), QUOTE, GT) }

  // ---------------------------------------------------------------- unmarshalling

  /** bytes.Split at every colon. */
  function Split(s: seq<Byte>): (parts: seq<seq<Byte>>)
    ensures parts != []
  {
    if s == [] then [[]]
    else
      var rest := Split(s[1..]);
      if s[0] == COLON then [[]] + rest else [[s[0]] + rest[0]] + rest[1..]
  }

  function ParseIds(s: seq<Byte>): Parsed {
    var ids := Split(s);
    if |ids| != 2 then Bad(IllegalAddressFormat)
    else
      match ParseUint(ids[0], 255)
      case None => Bad(OtherError)
      case Some(node) =>
        match ParseUint(ids[1], MODULUS - 1)
        case None => Bad(OtherError)
        case Some(n) => if n > MAX_MAILBOX_ID then Bad(IllegalAddressFormat) else Id(n * 256 + node)
  }

  function ParseText(b: seq<Byte>): Parsed {
    if b == [] then Bad(IllegalAddressFormat)
    else if b[0] == LT then
      if |b| > 23 || b[|b| - 1] != GT then Bad(IllegalAddressFormat) else ParseIds(b[1..|b| - 1])
    else if b[0] == X then Nobody
    else Bad(IllegalAddressFormat)
  }

  function ParseBinary(b: seq<Byte>): Parsed {
    if b == [] then Bad(IllegalAddressFormat)
    else if b[0] == LT then
      UvarintIsLEB128(b[1..]);
      var (x, n) := Uvarint(b[1..]);
      if n == 0 then Bad(IllegalAddressFormat) else Id(x)
    else if b == [X] then Nobody
    else Bad(OtherError)
  }

  // ---------------------------------------------------------------- which texts are an id

  /** What may stand between the delimiters for an id: both numbers in decimal, behind any zeros. */
  ghost predicate IsBody(s: seq<Byte>, id: MailboxID) {
    exists i: nat, j: nat :: s == Zeros(i) + Digits(NodeOf(id)) + [COLON] + (Zeros(j) + Digits(MailboxOnly(id)))
  }

  lemma {:induction false} SplitJoins(x: seq<Byte>, y: seq<Byte>)
    requires COLON !in x
    ensures Split(x + [COLON] + y) == [x] + Split(y)
  {
    var s := x + [COLON] + y;
    if x == [] {
      assert s[1..] == y;
    } else {
      assert s[1..] == x[1..] + [COLON] + y;
      SplitJoins(x[1..], y);
      assert [x[0]] + x[1..] == x;
    }
  }

  lemma {:induction false} SplitAlone(x: seq<Byte>)
    ensures |Split(x)| == 1 <==> COLON !in x
    ensures COLON !in x ==> Split(x) == [x]
  {
    if x != [] {
      SplitAlone(x[1..]);
      assert [x[0]] + x[1..] == x;
    }
  }

  /** Two parts come from exactly one colon, between them. */
  lemma {:induction false} SplitInTwo(s: seq<Byte>)
    requires |Split(s)| == 2
    ensures s == Split(s)[0] + [COLON] + Split(s)[1]
    ensures COLON !in Split(s)[0] && COLON !in Split(s)[1]
  {
    if s[0] == COLON {
      SplitAlone(s[1..]);
      assert s == [] + [COLON] + s[1..];
    } else {
      SplitInTwo(s[1..]);
      assert s == [s[0]] + s[1..];
    }
  }

  /** Reading n * 256 + node is reading node and n. */
  lemma Rebuilt(id: MailboxID, n: nat, node: nat)
    requires node < 256 && n <= MAX_MAILBOX_ID
    ensures n * 256 + node < MODULUS
    ensures n * 256 + node == id <==> node == NodeOf(id) && n == MailboxOnly(id)
    ensures (n * 256 % MODULUS + node) % MODULUS == n * 256 + node
  {
  }

  lemma BodyReads(s: seq<Byte>, id: MailboxID)
    ensures ParseIds(s) == Id(id) <==> IsBody(s, id)
  {
    var node, n := NodeOf(id), MailboxOnly(id);
    assert n <= MAX_MAILBOX_ID;
    if ParseIds(s) == Id(id) {
      SplitInTwo(s);
      var x, y := Split(s)[0], Split(s)[1];
      var node', n' := ParseUint(x, 255).value, ParseUint(y, MODULUS - 1).value;
      Rebuilt(id, n', node');
      ParseUintReads(x, 255, node);
      ParseUintReads(y, MODULUS - 1, n);
      var i: nat :| x == Zeros(i) + Digits(node);
      var j: nat :| y == Zeros(j) + Digits(n);
    }
    if i: nat, j: nat :| s == Zeros(i) + Digits(node) + [COLON] + (Zeros(j) + Digits(n)) {
      var x, y := Zeros(i) + Digits(node), Zeros(j) + Digits(n);
      ParseUintReads(x, 255, node);
      ParseUintReads(y, MODULUS - 1, n);
      SplitJoins(x, y);
      SplitAlone(y);
      Rebuilt(id, n, node);
    }
  }

  /** Exactly the texts that UnmarshalText reads as an id, and those it reads as the closed mailbox. */
  lemma TextReads(b: seq<Byte>, id: MailboxID)
    ensures ParseText(b) == Id(id) <==>
      2 <= |b| <= 23 && b[0] == LT && b[|b| - 1] == GT && IsBody(b[1..|b| - 1], id)
    ensures ParseText(b) == Nobody <==> b != [] && b[0] == X
  {
    if b != [] && b[0] == LT && b[|b| - 1] == GT {
      BodyReads(b[1..|b| - 1], id);
    }
  }

  /** The same with the characters written out. */
  lemma TextIsAscii(id: MailboxID, m: Cached)
    ensures IdText(id) == Ascii("<") + Digits(NodeOf(id)) + Ascii(":") + Digits(MailboxOnly(id)) + Ascii(">")
    ensures Quote(IdText(id)) == Ascii("\"") + Digits(NodeOf(id)) + Ascii(":") + Digits(MailboxOnly(id)) + Ascii("\"")
    ensures m.NoMailbox? ==> Text(m) == Binary(m) == Some(Ascii("X"))
    ensures m.Local? || m.Remote? ==> Binary(m) == Some(Ascii("<") + PutUvarint(m.id))
  {
    assert Ascii("X") == [X] && Ascii("<") == [LT];
  }

  /** The first mailbox of the first node, in the three forms. */
  lemma FirstMailboxReads()
    ensures IdText(257) == Ascii("<1:1>") && Quote(IdText(257)) == Ascii("\"1:1\"")
    ensures Binary(Local(257)) == Some([60, 0x81, 0x02])
  {
    assert Digits(1) == Ascii("1");
    assert PutUvarint(2) == [2];
    assert PutUvarint(257) == [0x81] + PutUvarint(2) == [0x81, 0x02];
    assert [LT] + [0x81, 0x02] == [60, 0x81, 0x02];
  }

  /** For JSON each delimiter may be a quote or the one of the text form. */
  lemma JsonReads(b: seq<Byte>, id: MailboxID)
    ensures ParseText(Unquote(b)) == Id(id) <==>
      2 <= |b| <= 23 && b[0] in {LT, QUOTE} && b[|b| - 1] in {GT, QUOTE} && IsBody(b[1..|b| - 1], id)
  {
    TextReads(Unquote(b), id);
    if |b| >= 2 {
      assert Unquote(b)[1..|b| - 1] == b[1..|b| - 1];
    }
  }

  /** Exactly the bytes that UnmarshalBinary reads as an id: a number that is
      too long or too large is read as id zero, and what follows it is ignored. */
  lemma BinaryReads(b: seq<Byte>, id: MailboxID)
    ensures ParseBinary(b) == Id(id) <==>
      && b != [] && b[0] == LT && Stop(b[1..]) < |b| - 1
      && var number := b[1..Stop(b[1..]) + 2];
         id == if |number| <= 10 && Groups(number) < MODULUS then Groups(number) else 0
  {
    if b != [] {
      UvarintIsLEB128(b[1..]);
      var k := Stop(b[1..]);
      if k < |b| - 1 {
        assert b[1..][..k + 1] == b[1..k + 2];
      }
    }
  }

  /** Which texts are refused, and how: a number that strconv refuses is its
      error, everything else an illegal format. */
  lemma TextErrors(b: seq<Byte>)
    ensures ParseText(b).Bad? ==> ParseText(b).error != IllegalNilSlice
    ensures ParseText(b) == Bad(OtherError) <==>
      && 2 <= |b| <= 23 && b[0] == LT && b[|b| - 1] == GT
      && exists x, y ::
           && b[1..|b| - 1] == x + [COLON] + y && COLON !in x && COLON !in y
           && !(IsNumber(x, 255) && IsNumber(y, MODULUS - 1))
  {
    if b != [] && b[0] == LT && 2 <= |b| <= 23 && b[|b| - 1] == GT {
      BodyErrors(b[1..|b| - 1]);
    }
  }

  lemma BodyErrors(s: seq<Byte>)
    ensures ParseIds(s) == Bad(OtherError) <==> exists x, y ::
      s == x + [COLON] + y && COLON !in x && COLON !in y && !(IsNumber(x, 255) && IsNumber(y, MODULUS - 1))
    ensures ParseIds(s) != Bad(IllegalNilSlice) && ParseIds(s) != Nobody
  {
    if |Split(s)| == 2 {
      SplitInTwo(s);
    }
    if x, y :| s == x + [COLON] + y && COLON !in x && COLON !in y && !(IsNumber(x, 255) && IsNumber(y, MODULUS - 1)) {
      SplitJoins(x, y);
      SplitAlone(y);
      assert Split(s) == [x, y];
    }
  }

  /** Some digits, for a number up to max. */
  predicate IsNumber(s: seq<Byte>, max: nat) {
    s != [] && AllDigits(s) && Value(s) <= max
  }

  /** Which bytes are read as the closed mailbox, which are refused, and how. */
  lemma BinaryErrors(b: seq<Byte>)
    ensures ParseBinary(b) == Nobody <==> b == [X]
    ensures ParseBinary(b) == Bad(IllegalAddressFormat) <==>
      b == [] || (b[0] == LT && forall k :: 1 <= k < |b| ==> b[k] >= 128)
    ensures ParseBinary(b) == Bad(OtherError) <==> b != [] && b[0] != LT && b != [X]
    ensures ParseBinary(b) != Bad(IllegalNilSlice)
  {
    if b != [] && b[0] == LT {
      UvarintIsLEB128(b[1..]);
      assert forall k :: 1 <= k < |b| ==> b[k] == b[1..][k - 1];
    }
  }

  // ---------------------------------------------------------------- round trips

  lemma TextInverts(id: MailboxID)
    ensures ParseText(IdText(id)) == Id(id) && |IdText(id)| <= 23
  {
    var node, n, t := NodeOf(id), MailboxOnly(id), IdText(id);
    TenToTheSeventeenth();
    DigitsLength(node, 3);
    DigitsLength(n, 17);
    assert t[1..|t| - 1] == Zeros(0) + Digits(node) + [COLON] + (Zeros(0) + Digits(n));
    TextReads(t, id);
  }

  lemma TenToTheSeventeenth()
    ensures Power10(3) == 1000 && Power10(17) == 100_000_000_000_000_000
  {
    assert Power10(4) == 10_000 && Power10(8) == 100_000_000 && Power10(12) == 1_000_000_000_000;
  }

  /** The JSON form is a string in quotes, with nothing in it to escape, and reads back. */
  lemma JsonInverts(id: MailboxID)
    ensures var j := Quote(IdText(id));
      && |j| <= 23 && j == [QUOTE] + Digits(NodeOf(id)) + [COLON] + Digits(MailboxOnly(id)) + [QUOTE]
      && ParseText(Unquote(j)) == Id(id)
  {
    TextInverts(id);
    assert Unquote(Quote(IdText(id))) == IdText(id);
  }

  lemma BinaryInverts(id: MailboxID, rest: seq<Byte>)
    ensures |[LT] + PutUvarint(id)| <= 11
    ensures ParseBinary([LT] + PutUvarint(id) + rest) == Id(id)
  {
    UvarintInverts(id, rest);
    assert ([LT] + PutUvarint(id) + rest)[1..] == PutUvarint(id) + rest;
    PutUvarintHolds(id);
  }

  lemma JsonOf(m: Cached)
    requires Text(m).Some?
    ensures var j := Quote(Text(m).value);
      && ParseText(Unquote(j)) == (if m.NoMailbox? then Nobody else Id(m.id))
      && (if m.NoMailbox? then j == [X] else j != [] && j[0] == QUOTE && j[|j| - 1] == QUOTE)
  {
    JsonInverts(m.id);
  }

  /** Getting at the mailbox panics only for an address that has none cached,
      without a connection server or on a node that is not in the cluster. */
  lemma PanicsIffUnknown(c: Option<Server>, m: Cached, id: MailboxID)
    ensures Cache(m, c, id).None? <==>
      m.Unresolved? && (c.None? || (NodeOf(id) != c.value.thisNode && NodeOf(id) !in c.value.remotes))
  {
  }

  /** Marshalling fails exactly for an address that found its mailbox closed,
      now or when it was first used, whatever became of the mailbox since; any
      other address is read back as its id, or as the closed mailbox X. */
  lemma MarshalsIffNotClosedHere(c: Server, m: Cached, id: MailboxID)
    requires Cache(m, Some(c), id).Some? && (m.Unresolved? || m.id == id)
    ensures var x := Cache(m, Some(c), id).value;
      var closedHere := m.NoMailboxPointer? || (m.Unresolved? && NodeOf(id) == c.thisNode && id !in c.open);
      var back := if m.NoMailbox? then Nobody else Id(id);
      && (Text(x).None? <==> closedHere)
      && (Binary(x).None? <==> closedHere)
      && (Text(x).Some? ==> ParseText(Text(x).value) == ParseText(Unquote(Quote(Text(x).value))) == back)
      && (Binary(x).Some? ==> ParseBinary(Binary(x).value) == back)
  {
    TextInverts(id);
    JsonInverts(id);
    BinaryInverts(id, []);
    assert [LT] + PutUvarint(id) + [] == [LT] + PutUvarint(id);
  }

  // ---------------------------------------------------------------- the object

  class Address {
    var mailboxID: MailboxID
    var mailbox: Cached

    /** A cached mailbox has the address's id. */
    predicate Valid()
      reads this
    {
      mailbox.Unresolved? || mailbox.id == mailboxID
    }

    /** UnmarshalFromID (282-286). */
    constructor FromID(id: MailboxID)
      ensures Valid() && mailboxID == id && mailbox == Unresolved
    {
      mailboxID, mailbox := id, Unresolved;
    }

    /** getAddress (109-160), with c the connection server in force. */
    method GetAddress(c: Option<Server>) returns (ok: bool)
      requires Valid()
      modifies this`mailbox
      ensures Valid()
      ensures ok <==> Cache(old(mailbox), c, mailboxID).Some?
      ensures if ok then Cache(old(mailbox), c, mailboxID) == Some(mailbox) else mailbox == old(mailbox)
      ensures ok ==> !mailbox.Unresolved?
    {
      if !mailbox.Unresolved? {
        return true;
      }
      if c.None? {
        return false;
      }
      if NodeOf(mailboxID) == c.value.thisNode {
        if mailboxID in c.value.open {
          mailbox := Local(mailboxID);
          return true;
        }
        mailbox := NoMailboxPointer(mailboxID);
        return true;
      }
      if NodeOf(mailboxID) !in c.value.remotes {
        return false;
      }
      mailbox := Remote(mailboxID);
      return true;
    }

    /** MarshalText (349-372). */
    method MarshalText(c: Option<Server>) returns (r: Outcome)
      requires Valid()
      modifies this`mailbox
      ensures Valid()
      ensures r.Panicked? <==> Cache(old(mailbox), c, mailboxID).None?
      ensures !r.Panicked? ==> Cache(old(mailbox), c, mailboxID) == Some(mailbox)
      ensures r.Failed? <==> mailbox.NoMailboxPointer?
      ensures r.Failed? ==> r.error == OtherError
      ensures r.Done? ==> ParseText(r.bytes) == (if mailbox.NoMailbox? then Nobody else Id(mailboxID))
      ensures r.Done? ==> Text(mailbox) == Some(r.bytes)
    {
      var ok := GetAddress(c);
      if !ok {
        return Panicked;
      }
      TextInverts(mailboxID);
      match mailbox
      case Local(id) => return Done([LT] + Digits(NodeOf(id)) + [COLON] + Digits(MailboxOnly(id)) + [GT]);
      case NoMailbox(_) => return Done([X]);
      case Remote(id) => return Done([LT] + Digits(NodeOf(id)) + [COLON] + Digits(MailboxOnly(id)) + [GT]);
      case _ => return Failed(OtherError);
    }

    /** MarshalJSON (388-403): a string in quotes, except that the closed mailbox is a bare X, which is not JSON. */
    method MarshalJSON(c: Option<Server>) returns (r: Outcome)
      requires Valid()
      modifies this`mailbox
      ensures Valid()
      ensures r.Panicked? <==> Cache(old(mailbox), c, mailboxID).None?
      ensures !r.Panicked? ==> Cache(old(mailbox), c, mailboxID) == Some(mailbox)
      ensures r.Failed? <==> mailbox.NoMailboxPointer?
      ensures r.Done? ==> ParseText(Unquote(r.bytes)) == (if mailbox.NoMailbox? then Nobody else Id(mailboxID))
      ensures r.Done? ==> r.bytes != [] && (mailbox.NoMailbox? <==> r.bytes == [X])
      ensures r.Done? ==> (mailbox.NoMailbox? <==> !(r.bytes[0] == QUOTE && r.bytes[|r.bytes| - 1] == QUOTE))
    {
      r := MarshalText(c);
      if r.Done? {
        JsonOf(mailbox);
        var b := r.bytes;
        if |b| > 0 && b[0] == LT {
          b := b[0 := QUOTE];
        }
        if |b| > 0 && b[|b| - 1] == GT {
          b := b[|b| - 1 := QUOTE];
        }
        assert b == Quote(r.bytes);
        r := Done(b);
      }
    }

    /** MarshalBinary (222-243). */
    method MarshalBinary(c: Option<Server>) returns (r: Outcome)
      requires Valid()
      modifies this`mailbox
      ensures Valid()
      ensures r.Panicked? <==> Cache(old(mailbox), c, mailboxID).None?
      ensures !r.Panicked? ==> Cache(old(mailbox), c, mailboxID) == Some(mailbox)
      ensures r.Failed? <==> mailbox.NoMailboxPointer?
      ensures r.Failed? ==> r.error == IllegalAddressFormat
      ensures r.Done? ==> ParseBinary(r.bytes) == (if mailbox.NoMailbox? then Nobody else Id(mailboxID))
      ensures r.Done? ==> Binary(mailbox) == Some(r.bytes) && |r.bytes| <= 11
    {
      var ok := GetAddress(c);
      if !ok {
        return Panicked;
      }
      BinaryInverts(mailboxID, []);
      assert [LT] + PutUvarint(mailboxID) + [] == [LT] + PutUvarint(mailboxID);
      match mailbox
      case Local(id) => return Done([LT] + PutUvarint(id));
      case NoMailbox(_) => return Done([X]);
      case Remote(id) => return Done([LT] + PutUvarint(id));
      case _ => return Failed(IllegalAddressFormat);
    }

    /** The address after unmarshalling: all of it is replaced, and a failure leaves the zero address. */
    ghost predicate Read(p: Parsed, error: Option<Error>)
      reads this
    {
      match p
      case Id(id) => error == None && mailboxID == id && mailbox == Unresolved
      case Nobody => error == None && mailboxID == 0 && mailbox == NoMailbox(0)
      case Bad(e) => error == Some(e) && mailboxID == 0 && mailbox == Unresolved
    }

    /** UnmarshalText (289-344). */
    method UnmarshalText(b: array?<Byte>) returns (error: Option<Error>)
      modifies this
      ensures Valid()
      ensures Read(if b == null then Bad(IllegalNilSlice) else ParseText(b[..]), error)
    {
      mailboxID, mailbox := 0, Unresolved;
      if b == null {
        return Some(IllegalNilSlice);
      }
      if b.Length == 0 {
        return Some(IllegalAddressFormat);
      }
      if b[0] == LT {
        if b.Length > 23 {
          return Some(IllegalAddressFormat);
        }
        if b[b.Length - 1] != GT {
          return Some(IllegalAddressFormat);
        }
        var ids := Split(b[1..b.Length - 1]);
        if |ids| != 2 {
          return Some(IllegalAddressFormat);
        }
        var node := ParseUint(ids[0], 255);
        if node.None? {
          return Some(OtherError);
        }
        var n := ParseUint(ids[1], MODULUS - 1);
        if n.None? {
          return Some(OtherError);
        }
        if n.value > MAX_MAILBOX_ID {
          return Some(IllegalAddressFormat);
        }
        assert b[1..b.Length - 1] == b[..][1..b.Length - 1];
        Rebuilt(0, n.value, node.value);
        mailboxID := (n.value * 256 % MODULUS + node.value) % MODULUS;
        return None;
      }
      if b[0] == X {
        mailbox := NoMailbox(0);
        return None;
      }
      return Some(IllegalAddressFormat);
    }

    /** UnmarshalJSON (375-385), which replaces the quotes in the caller's bytes. */
    method UnmarshalJSON(b: array?<Byte>) returns (error: Option<Error>)
      modifies this, b
      ensures Valid()
      ensures b != null ==> b[..] == Unquote(old(b[..]))
      ensures Read(if b == null then Bad(IllegalNilSlice) else ParseText(Unquote(old(b[..]))), error)
    {
      if b != null {
        ghost var before := b[..];
        if b.Length > 0 && b[0] == QUOTE {
          b[0] := LT;
        }
        assert b[..] == SwapFirst(before, QUOTE, LT);
        if b.Length > 0 && b[b.Length - 1] == QUOTE {
          b[b.Length - 1] := GT;
        }
        assert b[..] == Unquote(before);
      }
      error := UnmarshalText(b);
    }

    /** UnmarshalBinary (246-272). */
    method UnmarshalBinary(b: seq<Byte>) returns (error: Option<Error>)
      modifies this
      ensures Valid()
      ensures Read(ParseBinary(b), error)
    {
      mailboxID, mailbox := 0, Unresolved;
      if |b| == 0 {
        return Some(IllegalAddressFormat);
      }
      if b[0] == LT {
        UvarintIsLEB128(b[1..]);
        var (id, readBytes) := Uvarint(b[1..]);
        if readBytes == 0 {
          return Some(IllegalAddressFormat);
        }
        mailboxID := id;
        return None;
      }
      if |b| == 1 && b[0] == X {
        mailbox, mailboxID := NoMailbox(0), 0;
        return None;
      }
      return Some(OtherError);
    }
  }
}
