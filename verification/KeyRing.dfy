/** The versioned root key ring over an ideal authenticated cipher: parsing,
    associated data, blobs and rotation.

    A derived key is the pair of its root key and purpose, and a sealed body the
    term of everything that went into it, so it opens under exactly that. */
module KeyRing {
  import opened Wrappers

  const KEY_BYTES: nat := 32
  const NONCE_BYTES: nat := 12
  const TAG_BYTES: nat := 16
  const MAX_VERSION: int := 32767

  type Byte = x: int | 0 <= x < 256
  type Bytes = seq<Byte>

  datatype Entry = Entry(version: int, key: Bytes)

  datatype Refusal =
    | NoSeparator | NotAnInteger | OutOfRange | VersionRepeated
    | NotBase64 | WrongLength | KeyRepeated | NotNewestFirst

  // ----- parsing -----

  /** What the language supplies: trimming, integer and base64 decoding. */
  datatype Text = Text(strip: string -> string, integer: string -> Option<int>, base64: string -> Option<Bytes>)

  function Split(raw: string, separator: char): (r: seq<string>)
    ensures |r| > 0
  {
    if raw == [] then [""]
    else
      var rest := Split(raw[1..], separator);
      if raw[0] == separator then [""] + rest else [[raw[0]] + rest[0]] + rest[1..]
  }

  /** The text before and after the first separator. */
  function Partition(item: string, separator: char): Option<(string, string)> {
    if item == [] then None
    else if item[0] == separator then Some(("", item[1..]))
    else
      match Partition(item[1..], separator)
      case None => None
      case Some(p) => Some(([item[0]] + p.0, p.1))
  }

  function Join(parts: seq<string>, separator: char): string
    requires parts != []
  {
    if |parts| == 1 then parts[0] else parts[0] + [separator] + Join(parts[1..], separator)
  }

  lemma JoinOneLonger(c: char, parts: seq<string>, separator: char)
    requires parts != []
    ensures Join([[c] + parts[0]] + parts[1..], separator) == [c] + Join(parts, separator)
    ensures Join([""] + parts, separator) == [separator] + Join(parts, separator)
  {
    assert ([[c] + parts[0]] + parts[1..])[1..] == parts[1..] && ([""] + parts)[1..] == parts;
  }

  /** The items are exactly what stands between the separators. */
  lemma {:induction false} SplitUndoesJoin(raw: string, separator: char)
    ensures Join(Split(raw, separator), separator) == raw
    ensures forall part | part in Split(raw, separator) :: separator !in part
  {
    if raw != [] {
      var rest := Split(raw[1..], separator);
      SplitUndoesJoin(raw[1..], separator);
      JoinOneLonger(raw[0], rest, separator);
      assert raw == [raw[0]] + raw[1..];
      assert rest[0] in rest && forall part | part in rest[1..] :: part in rest;
    }
  }

  /** A partition cuts at the first separator, and there is none without one. */
  lemma {:induction false} PartitionCutsAtTheFirst(item: string, separator: char)
    ensures Partition(item, separator).None? <==> separator !in item
    ensures Partition(item, separator).Some? ==>
      var (before, after) := Partition(item, separator).value;
      item == before + [separator] + after && separator !in before
  {
    if item != [] {
      PartitionCutsAtTheFirst(item[1..], separator);
      assert item == [item[0]] + item[1..];
    }
  }

  /** One item on its own, before it is compared with the others. */
  function EntryOf(item: string, text: Text): Option<Entry> {
    match Partition(text.strip(item), ':')
    case None => None
    case Some(p) =>
      match (text.integer(p.0), text.base64(p.1))
      case (Some(version), Some(key)) =>
        if 1 <= version <= MAX_VERSION && |key| == KEY_BYTES then Some(Entry(version, key)) else None
      case _ => None
  }

  /** A ring that may be trusted: every item well formed, versions strictly
      descending, no key twice. */
  predicate Trusted(items: seq<string>, text: Text) {
    && (forall i | 0 <= i < |items| :: EntryOf(items[i], text).Some?)
    && (forall i, j | 0 <= i < j < |items| ::
          && EntryOf(items[i], text).value.version > EntryOf(items[j], text).value.version
          && EntryOf(items[i], text).value.key != EntryOf(items[j], text).value.key)
  }

  predicate WellFormed(entries: seq<Entry>) {
    && (forall i | 0 <= i < |entries| :: 1 <= entries[i].version <= MAX_VERSION && |entries[i].key| == KEY_BYTES)
    && (forall i, j | 0 <= i < j < |entries| ::
          entries[i].version > entries[j].version && entries[i].key != entries[j].key)
  }

  function Versions(entries: seq<Entry>): set<int> {
    set e | e in entries :: e.version
  }

  function Keys(entries: seq<Entry>): set<Bytes> {
    set e | e in entries :: e.key
  }

  lemma OneMoreEntry(entries: seq<Entry>, e: Entry)
    ensures Versions(entries + [e]) == Versions(entries) + {e.version}
    ensures Keys(entries + [e]) == Keys(entries) + {e.key}
  {
    forall x | x in entries
      ensures x in entries + [e]
    {
    }
    assert e in entries + [e];
  }

  /** Not repeated and not above the last one is below all of them. */
  lemma StaysWellFormed(entries: seq<Entry>, e: Entry)
    requires WellFormed(entries) && 1 <= e.version <= MAX_VERSION && |e.key| == KEY_BYTES
    requires e.version !in Versions(entries) && e.key !in Keys(entries)
    requires entries != [] ==> e.version <= entries[|entries| - 1].version
    ensures WellFormed(entries + [e])
  {
    forall i | 0 <= i < |entries|
      ensures entries[i].version > e.version && entries[i].key != e.key
    {
      assert entries[i] in entries && entries[|entries| - 1] in entries;
    }
  }

  /** What each refusal says about the first item that cannot be trusted: every
      check before its own was passed. */
  predicate Blames(refusal: Refusal, entries: seq<Entry>, item: string, text: Text) {
    var parts := Partition(text.strip(item), ':');
    if parts.None? || refusal.NoSeparator? then parts.None? && refusal.NoSeparator?
    else
      var version := text.integer(parts.value.0);
      if version.None? || refusal.NotAnInteger? then version.None? && refusal.NotAnInteger?
      else if refusal.OutOfRange? then !(1 <= version.value <= MAX_VERSION)
      else
        && 1 <= version.value <= MAX_VERSION
        && if refusal.VersionRepeated? then version.value in Versions(entries)
           else version.value !in Versions(entries) && BlamesKey(refusal, entries, version.value, text.base64(parts.value.1))
  }

  predicate BlamesKey(refusal: Refusal, entries: seq<Entry>, version: int, key: Option<Bytes>) {
    match refusal
    case NotBase64 => key.None?
    case WrongLength => key.Some? && |key.value| != KEY_BYTES
    case KeyRepeated => key.Some? && |key.value| == KEY_BYTES && key.value in Keys(entries)
    case NotNewestFirst =>
      && key.Some? && |key.value| == KEY_BYTES && key.value !in Keys(entries)
      && entries != [] && version > entries[|entries| - 1].version
    case _ => false
  }

  /** The entries of the items before the i-th, all of them trusted. */
  predicate Lists(entries: seq<Entry>, items: seq<string>, text: Text) {
    |entries| <= |items| && WellFormed(entries)
    && forall j | 0 <= j < |entries| :: EntryOf(items[j], text) == Some(entries[j])
  }

  lemma TrustedMeansListed(entries: seq<Entry>, items: seq<string>, text: Text)
    requires Lists(entries, items, text) && |entries| == |items|
    ensures Trusted(items, text)
  {
  }

  lemma TrustedIsNotBlamed(refusal: Refusal, entries: seq<Entry>, items: seq<string>, text: Text)
    requires Lists(entries, items, text) && |entries| < |items|
    ensures Trusted(items, text) ==> !Blames(refusal, entries, items[|entries|], text)
  {
    var n := |entries|;
    if Trusted(items, text) {
      var e := EntryOf(items[n], text).value;
      forall x | x in entries
        ensures x.version > e.version && x.key != e.key
      {
        var j :| 0 <= j < n && entries[j] == x;
        assert EntryOf(items[j], text) == Some(x);
      }
      if n > 0 {
        assert entries[n - 1] in entries;
      }
    }
  }

  /** Accepts exactly the trusted rings, entry by entry as they are listed, and
      otherwise says what is wrong with the first item that breaks one. */
  method ParseRootKeys(raw: string, text: Text) returns (r: Result<seq<Entry>, Refusal>)
    ensures r.Ok? <==> Trusted(Split(raw, ','), text)
    ensures r.Ok? ==> |r.value| == |Split(raw, ',')| && Lists(r.value, Split(raw, ','), text)
    ensures r.Err? ==>
      exists entries | Lists(entries, Split(raw, ','), text) ::
        |entries| < |Split(raw, ',')| && Blames(r.error, entries, Split(raw, ',')[|entries|], text)
  {
    var items := Split(raw, ',');
    var entries: seq<Entry> := [];
    var seen: set<int>, seenKeys: set<Bytes> := {}, {};
    for i := 0 to |items|
      invariant |entries| == i && Lists(entries, items, text)
      invariant seen == Versions(entries) && seenKeys == Keys(entries)
    {
      var refusal, entry := CheckItem(items[i], text, entries, seen, seenKeys);
      if refusal.Some? {
        TrustedIsNotBlamed(refusal.value, entries, items, text);
        return Err(refusal.value);
      }
      StaysWellFormed(entries, entry);
      OneMoreEntry(entries, entry);
      seen := seen + {entry.version};
      seenKeys := seenKeys + {entry.key};
      entries := entries + [entry];
    }
    TrustedMeansListed(entries, items, text);
    return Ok(entries);
  }

  /** One pass of the loop body, its checks in their order. */
  method CheckItem(item: string, text: Text, entries: seq<Entry>, seen: set<int>, seenKeys: set<Bytes>)
    returns (refusal: Option<Refusal>, entry: Entry)
    requires seen == Versions(entries) && seenKeys == Keys(entries)
    ensures forall p :: Blames(p, entries, item, text) <==> refusal == Some(p)
    ensures refusal.None? ==>
      && EntryOf(item, text) == Some(entry) && entry.version !in seen && entry.key !in seenKeys
      && (entries != [] ==> entry.version <= entries[|entries| - 1].version)
  {
    entry := Entry(0, []);
    var parts := Partition(text.strip(item), ':');
    if parts.None? {
      return Some(NoSeparator), entry;
    }
    var version := text.integer(parts.value.0);
    if version.None? {
      return Some(NotAnInteger), entry;
    }
    if !(1 <= version.value <= MAX_VERSION) {
      return Some(OutOfRange), entry;
    }
    if version.value in seen {
      return Some(VersionRepeated), entry;
    }
    var key := text.base64(parts.value.1);
    if key.None? {
      return Some(NotBase64), entry;
    }
    if |key.value| != KEY_BYTES {
      return Some(WrongLength), entry;
    }
    if key.value in seenKeys {
      return Some(KeyRepeated), entry;
    }
    if entries != [] && version.value > entries[|entries| - 1].version {
      return Some(NotNewestFirst), entry;
    }
    return None, Entry(version.value, key.value);
  }

  // ----- the ring -----

  datatype Ring = Ring(roots: map<int, Bytes>, active: int)

  function Roots(entries: seq<Entry>): map<int, Bytes> {
    if entries == [] then map[]
    else Roots(entries[..|entries| - 1])[entries[|entries| - 1].version := entries[|entries| - 1].key]
  }

  function RingOf(entries: seq<Entry>): Ring
    requires entries != []
  {
    Ring(Roots(entries), entries[0].version)
  }

  predicate Valid(ring: Ring) {
    ring.active in ring.roots && forall v | v in ring.roots :: 1 <= v <= MAX_VERSION
  }

  lemma {:induction false} RootsAre(entries: seq<Entry>, i: nat)
    requires WellFormed(entries) && i < |entries|
    ensures entries[i].version in Roots(entries) && Roots(entries)[entries[i].version] == entries[i].key
  {
    var before := entries[..|entries| - 1];
    if i < |before| {
      assert entries[i].version > entries[|entries| - 1].version;
      RootsAre(before, i);
    }
  }

  lemma {:induction false} RootsAreListed(entries: seq<Entry>, v: int) returns (i: nat)
    requires v in Roots(entries)
    ensures i < |entries| && entries[i].version == v
  {
    if v == entries[|entries| - 1].version {
      i := |entries| - 1;
    } else {
      i := RootsAreListed(entries[..|entries| - 1], v);
    }
  }

  /** The ring writes with the newest version it holds. */
  lemma WritesWithTheNewest(entries: seq<Entry>)
    requires WellFormed(entries) && entries != []
    ensures Valid(RingOf(entries))
    ensures forall v | v in RingOf(entries).roots :: v <= RingOf(entries).active
    ensures forall i | 0 <= i < |entries| ::
      entries[i].version in RingOf(entries).roots && RingOf(entries).roots[entries[i].version] == entries[i].key
  {
    forall i: nat | i < |entries|
      ensures entries[i].version in Roots(entries) && Roots(entries)[entries[i].version] == entries[i].key
    {
      RootsAre(entries, i);
    }
    forall v | v in Roots(entries)
      ensures 1 <= v <= entries[0].version
    {
      var i := RootsAreListed(entries, v);
    }
  }

  // ----- associated data -----

  function BigEndian32(n: nat): Bytes
    requires n < 0x1_0000_0000
  {
    [n / 0x100_0000, n / 0x1_0000 % 0x100, n / 0x100 % 0x100, n % 0x100]
  }

  function AssociatedData(purpose: Bytes, aad: Bytes): Bytes
    requires |purpose| < 0x1_0000_0000
  {
    BigEndian32(|purpose|) + purpose + aad
  }

  lemma LengthsDiffer(m: nat, n: nat)
    requires m < 0x1_0000_0000 && n < 0x1_0000_0000 && BigEndian32(m) == BigEndian32(n)
    ensures m == n
  {
    assert BigEndian32(m)[0] == BigEndian32(n)[0] && BigEndian32(m)[1] == BigEndian32(n)[1];
    assert BigEndian32(m)[2] == BigEndian32(n)[2] && BigEndian32(m)[3] == BigEndian32(n)[3];
    FromBytes(m);
    FromBytes(n);
  }

  lemma FromBytes(n: nat)
    requires n < 0x1_0000_0000
    ensures n == 0x100_0000 * (n / 0x100_0000) + 0x1_0000 * (n / 0x1_0000 % 0x100)
                 + 0x100 * (n / 0x100 % 0x100) + n % 0x100
  {
  }

  /** Different pairs of purpose and context never share associated data. */
  lemma AssociatedDataIsInjective(purpose: Bytes, aad: Bytes, purpose': Bytes, aad': Bytes)
    requires |purpose| < 0x1_0000_0000 && |purpose'| < 0x1_0000_0000
    requires AssociatedData(purpose, aad) == AssociatedData(purpose', aad')
    ensures purpose == purpose' && aad == aad'
  {
    var d, d' := AssociatedData(purpose, aad), AssociatedData(purpose', aad');
    assert d[..4] == BigEndian32(|purpose|) && d'[..4] == BigEndian32(|purpose'|);
    LengthsDiffer(|purpose|, |purpose'|);
    assert d[4..4 + |purpose|] == purpose && d'[4..4 + |purpose'|] == purpose';
    assert d[4 + |purpose|..] == aad && d'[4 + |purpose'|..] == aad';
  }

  // ----- blobs -----

  datatype Key = Derived(root: Bytes, purpose: Bytes)

  datatype Body = Sealed(key: Key, nonce: Bytes, plaintext: Bytes, bound: Bytes) | Junk(bytes: Bytes)

  datatype Blob = Blob(version: Bytes, nonce: Bytes, body: Body)

  datatype Failure = TooShort | UnknownVersion | DoesNotVerify

  function BigEndian16(n: nat): Bytes
    requires n < 0x1_0000
  {
    [n / 0x100, n % 0x100]
  }

  function Length(blob: Blob): nat {
    |blob.version| + |blob.nonce|
    + if blob.body.Sealed? then |blob.body.plaintext| + TAG_BYTES else |blob.body.bytes|
  }

  function VersionOf(blob: Blob): Result<nat, Failure> {
    if Length(blob) < 2 + NONCE_BYTES + TAG_BYTES || |blob.version| != 2 then Err(TooShort)
    else
      var high: int, low: int := blob.version[0], blob.version[1];
      Ok(high * 0x100 + low)
  }

  function Encrypt(ring: Ring, purpose: Bytes, plaintext: Bytes, aad: Bytes, nonce: Bytes): Blob
    requires Valid(ring) && |purpose| < 0x1_0000_0000
  {
    Blob(BigEndian16(ring.active), nonce,
         Sealed(Derived(ring.roots[ring.active], purpose), nonce, plaintext, AssociatedData(purpose, aad)))
  }

  function Decrypt(ring: Ring, purpose: Bytes, blob: Blob, aad: Bytes): Result<Bytes, Failure>
    requires |purpose| < 0x1_0000_0000
  {
    match VersionOf(blob)
    case Err(e) => Err(e)
    case Ok(version) =>
      if version !in ring.roots then Err(UnknownVersion)
      else if blob.body.Sealed?
              && blob.body.key == Derived(ring.roots[version], purpose)
              && blob.body.nonce == blob.nonce
              && blob.body.bound == AssociatedData(purpose, aad)
      then Ok(blob.body.plaintext)
      else Err(DoesNotVerify)
  }

  function Reencrypt(ring: Ring, purpose: Bytes, blob: Blob, aad: Bytes, nonce: Bytes): Result<Blob, Failure>
    requires Valid(ring) && |purpose| < 0x1_0000_0000
  {
    match Decrypt(ring, purpose, blob, aad)
    case Err(e) => Err(e)
    case Ok(plaintext) => Ok(Encrypt(ring, purpose, plaintext, aad, nonce))
  }

  /** What was encrypted decrypts to itself under the same purpose, context and
      root key, whatever else the reading ring holds, and under nothing else. */
  lemma DecryptUndoesEncrypt(ring: Ring, purpose: Bytes, plaintext: Bytes, aad: Bytes, nonce: Bytes,
                             reader: Ring, purpose': Bytes, aad': Bytes)
    requires Valid(ring) && |nonce| == NONCE_BYTES
    requires |purpose| < 0x1_0000_0000 && |purpose'| < 0x1_0000_0000
    ensures var r := Decrypt(reader, purpose', Encrypt(ring, purpose, plaintext, aad, nonce), aad');
      && (r.Ok? <==>
            && ring.active in reader.roots && reader.roots[ring.active] == ring.roots[ring.active]
            && purpose' == purpose && aad' == aad)
      && (r.Ok? ==> r.value == plaintext)
      && (ring.active !in reader.roots ==> r == Err(UnknownVersion))
  {
    var blob := Encrypt(ring, purpose, plaintext, aad, nonce);
    assert VersionOf(blob) == Ok(ring.active);
    if AssociatedData(purpose', aad') == AssociatedData(purpose, aad) {
      AssociatedDataIsInjective(purpose', aad', purpose, aad);
    }
  }

  /** And nothing opens but what was sealed under the key the blob names, for
      that purpose and context and with the nonce it carries. */
  lemma OpensOnlyWhatWasSealed(ring: Ring, purpose: Bytes, blob: Blob, aad: Bytes, plaintext: Bytes)
    requires Valid(ring) && |purpose| < 0x1_0000_0000
    ensures Decrypt(ring, purpose, blob, aad) == Ok(plaintext) <==>
      exists v: nat, nonce | v in ring.roots ::
        && blob == Encrypt(Ring(ring.roots, v), purpose, plaintext, aad, nonce)
        && |nonce| + |plaintext| >= NONCE_BYTES
  {
    if Decrypt(ring, purpose, blob, aad) == Ok(plaintext) {
      var v := VersionOf(blob).value;
      TwoBytes(blob.version, v);
      assert blob == Encrypt(Ring(ring.roots, v), purpose, plaintext, aad, blob.nonce);
    }
    if v: nat, nonce :| v in ring.roots && blob == Encrypt(Ring(ring.roots, v), purpose, plaintext, aad, nonce)
                        && |nonce| + |plaintext| >= NONCE_BYTES {
      assert VersionOf(blob) == Ok(v);
    }
  }

  lemma TwoBytes(version: Bytes, v: nat)
    requires |version| == 2 && version[0] as int * 0x100 + version[1] as int == v && v < 0x1_0000
    ensures version == BigEndian16(v)
  {
    assert version[0] == v / 0x100 && version[1] == v % 0x100;
  }

  // ----- rotation -----

  /** A stored secret; `keyVersion` is the column the rotation selects by. */
  datatype Row = Row(keyVersion: int, blob: Blob, aad: Bytes)

  predicate Honest(row: Row) {
    VersionOf(row.blob).Ok? && VersionOf(row.blob).value == row.keyVersion
  }

  /** A later ring keeps the keys of an earlier one. */
  predicate Extends(later: Ring, earlier: Ring) {
    forall v | v in earlier.roots :: v in later.roots && later.roots[v] == earlier.roots[v]
  }

  /** The ring once every version but the active one has been retired. */
  function OnlyActive(ring: Ring): Ring
    requires Valid(ring)
  {
    Ring(map[ring.active := ring.roots[ring.active]], ring.active)
  }

  function Rotated(ring: Ring, purpose: Bytes, row: Row, nonce: Bytes): Result<Row, Failure>
    requires Valid(ring) && |purpose| < 0x1_0000_0000
  {
    if row.keyVersion == ring.active then Ok(row)
    else
      match Reencrypt(ring, purpose, row.blob, row.aad, nonce)
      case Err(e) => Err(e)
      case Ok(blob) => Ok(Row(ring.active, blob, row.aad))
  }

  /** A rotated row holds the same secret, and the newest key alone reads it. */
  lemma RotationKeepsTheSecret(ring: Ring, purpose: Bytes, row: Row, nonce: Bytes)
    requires Valid(ring) && |purpose| < 0x1_0000_0000 && |nonce| == NONCE_BYTES && Honest(row)
    ensures row.keyVersion != ring.active ==>
      (Rotated(ring, purpose, row, nonce).Ok? <==> Decrypt(ring, purpose, row.blob, row.aad).Ok?)
    ensures Rotated(ring, purpose, row, nonce).Ok? ==>
      var next := Rotated(ring, purpose, row, nonce).value;
      && Honest(next) && next.keyVersion == ring.active && next.aad == row.aad
      && Decrypt(OnlyActive(ring), purpose, next.blob, row.aad) == Decrypt(ring, purpose, row.blob, row.aad)
  {
    var clear := Decrypt(ring, purpose, row.blob, row.aad);
    if row.keyVersion != ring.active && clear.Ok? {
      DecryptUndoesEncrypt(ring, purpose, clear.value, row.aad, nonce, OnlyActive(ring), purpose, row.aad);
      assert VersionOf(Encrypt(ring, purpose, clear.value, row.aad, nonce)) == Ok(ring.active);
    }
  }

  /** `rotate_keys`: either every row selected is rewritten, or the transaction
      fails and none is. */
  method RotateKeys(ring: Ring, purpose: Bytes, rows: seq<Row>, nonces: seq<Bytes>)
    returns (r: Result<seq<Row>, Failure>)
    requires Valid(ring) && |purpose| < 0x1_0000_0000
    requires |nonces| == |rows| && forall i | 0 <= i < |nonces| :: |nonces[i]| == NONCE_BYTES
    requires forall i | 0 <= i < |rows| :: Honest(rows[i])
    ensures r.Ok? <==> forall i | 0 <= i < |rows| :: Rotated(ring, purpose, rows[i], nonces[i]).Ok?
    ensures r.Err? ==> exists i | 0 <= i < |rows| ::
      && Rotated(ring, purpose, rows[i], nonces[i]) == Err(r.error)
      && forall j | 0 <= j < i :: Rotated(ring, purpose, rows[j], nonces[j]).Ok?
    ensures r.Ok? ==>
      && |r.value| == |rows|
      && forall i | 0 <= i < |rows| ::
           && Honest(r.value[i]) && r.value[i].keyVersion == ring.active && r.value[i].aad == rows[i].aad
           && Decrypt(OnlyActive(ring), purpose, r.value[i].blob, rows[i].aad)
              == Decrypt(ring, purpose, rows[i].blob, rows[i].aad)
  {
    var done: seq<Row> := [];
    for i := 0 to |rows|
      invariant |done| == i
      invariant forall j | 0 <= j < i :: Rotated(ring, purpose, rows[j], nonces[j]) == Ok(done[j])
    {
      if rows[i].keyVersion == ring.active {
        done := done + [rows[i]];
      } else {
        var clear := Decrypt(ring, purpose, rows[i].blob, rows[i].aad);
        if clear.Err? {
          return Err(clear.error);
        }
        done := done + [Row(ring.active, Encrypt(ring, purpose, clear.value, rows[i].aad, nonces[i]), rows[i].aad)];
      }
    }
    forall i | 0 <= i < |rows|
      ensures Honest(done[i]) && done[i].keyVersion == ring.active && done[i].aad == rows[i].aad
      ensures Decrypt(OnlyActive(ring), purpose, done[i].blob, rows[i].aad)
              == Decrypt(ring, purpose, rows[i].blob, rows[i].aad)
    {
      RotationKeepsTheSecret(ring, purpose, rows[i], nonces[i]);
    }
    return Ok(done);
  }

  /** Adding a newer key first makes no secret unreadable, and then rotating
      and retiring every other key keeps every readable secret readable. */
  lemma RotationLosesNothing(before: Ring, ring: Ring, purpose: Bytes, row: Row, nonce: Bytes)
    requires Valid(before) && Valid(ring) && Extends(ring, before)
    requires |purpose| < 0x1_0000_0000 && |nonce| == NONCE_BYTES && Honest(row)
    requires Decrypt(before, purpose, row.blob, row.aad).Ok?
    ensures Rotated(ring, purpose, row, nonce).Ok?
    ensures Decrypt(OnlyActive(ring), purpose, Rotated(ring, purpose, row, nonce).value.blob, row.aad)
            == Decrypt(before, purpose, row.blob, row.aad)
  {
    RotationKeepsTheSecret(ring, purpose, row, nonce);
  }
}
