/** The vault of client-supplied provider keys: sealed rows, one for each tenant and provider. Authenticated encryption
    is a seal and open pair (sections 7.1 and 7.2 of NIST SP 800-38D). */
module Vault {
  import opened Base64
  import opened Orders

  datatype Opened = Plain(text: string) | Tampered | Unusable
  datatype Cipher = Cipher(derive: (string, Bytes) -> int,
                           seal: (int, Bytes, string, string) -> Bytes,
                           open: (int, Bytes, Bytes, string) -> Opened)

  const NONCE_BYTES := 12

  predicate Nonce(n: Bytes) {
    |n| == NONCE_BYTES
  }

  /** Correctness: what was sealed opens under the same key and associated data. */
  ghost predicate Opens(c: Cipher) {
    forall k, n, p, a :: Nonce(n) ==> c.open(k, n, c.seal(k, n, p, a), a) == Plain(p)
  }

  /** Authenticity: only what was sealed under the same key, nonce and associated data opens. */
  ghost predicate OnlySealedOpens(c: Cipher) {
    forall k, n, x, a :: c.open(k, n, x, a).Plain? ==> x == c.seal(k, n, c.open(k, n, x, a).text, a)
  }

  /** Under key l and data b some text seals to the very bytes that p seals to under key k and data a: the coincidence
      that a tag makes improbable and that only an unboundedly long one could rule out. */
  ghost predicate SealsAlike(c: Cipher, n: Bytes, k: int, p: string, a: string, l: int, b: string) {
    exists q :: c.seal(l, n, q, b) == c.seal(k, n, p, a)
  }

  /** The ideal: sealed bytes tell keys and associated data apart, and different secrets derive different keys. */
  ghost predicate Ideal(c: Cipher) {
    && (forall k, n, p, a, l, q, b :: c.seal(k, n, p, a) == c.seal(l, n, q, b) ==> k == l && a == b)
    && (forall s, t, salt :: c.derive(s, salt) == c.derive(t, salt) ==> s == t)
  }

  // ---- the blob ---------------------------------------------------------------------------------------

  function DotAt(text: string): (i: nat)
    ensures i <= |text| && (i < |text| ==> text[i] == '.')
    ensures forall j :: 0 <= j < i ==> text[j] != '.'
  {
    if text == "" || text[0] == '.' then 0 else 1 + DotAt(text[1..])
  }

  /** Cut at the first dots, at most so many times. */
  function Split(text: string, times: nat): seq<string> {
    if times == 0 || DotAt(text) == |text| then [text] else [text[..DotAt(text)]] + Split(text[DotAt(text) + 1..], times - 1)
  }

  lemma SplitFirst(part: string, rest: string, times: nat)
    requires '.' !in part
    ensures Split(part + "." + rest, times + 1) == [part] + Split(rest, times)
  {
    var text := part + "." + rest;
    assert text[|part|] == '.';
    var i := DotAt(text);
    assert forall j :: 0 <= j < |part| ==> text[j] == part[j];
    assert i == |part|;
    assert text[..i] == part && text[i + 1..] == rest;
  }

  datatype VaultError = UnknownVersion | FailedAuthentication | MalformedBlob
  datatype Result = Ok(text: string) | Err(error: VaultError)

  function Encrypt(c: Cipher, secret: string, plain: string, aad: string, salt: Bytes, nonce: Bytes): string {
    var sealed := c.seal(c.derive(secret, salt), nonce, plain, aad);
    "v1" + "." + (Encode(salt) + "." + (Encode(nonce) + "." + Encode(sealed)))
  }

  function ResultOf(o: Opened): Result {
    match o
    case Plain(text) => Ok(text)
    case Tampered => Err(FailedAuthentication)
    case Unusable => Err(MalformedBlob)
  }

  function Decrypt(c: Cipher, secret: string, blob: string, aad: string): Result {
    var parts := Split(blob, 3);
    if |parts| != 4 then Err(MalformedBlob)
    else if parts[0] != "v1" then Err(UnknownVersion)
    else
      var salt, nonce, sealed := Decode(parts[1]), Decode(parts[2]), Decode(parts[3]);
      if salt.Malformed? || nonce.Malformed? || sealed.Malformed? then Err(MalformedBlob)
      else
        ResultOf(c.open(c.derive(secret, salt.bytes), nonce.bytes, sealed.bytes, aad))
  }

  lemma SplitBlob(a: string, b: string, d: string)
    requires '.' !in a && '.' !in b && '.' !in d
    ensures Split("v1" + "." + (a + "." + (b + "." + d)), 3) == ["v1", a, b, d]
  {
    hide Split;
    SplitFirst("v1", a + "." + (b + "." + d), 2);
    SplitFirst(a, b + "." + d, 1);
    SplitFirst(b, d, 0);
    assert Split(d, 0) == [d] by {
      SplitNone(d);
    }
  }

  lemma SplitNone(d: string)
    ensures Split(d, 0) == [d]
  {
  }

  /** What decryption makes of a sealed blob: the cipher's answer on the very bytes that were sealed. */
  lemma DecryptSealed(c: Cipher, secret: string, plain: string, aad: string, salt: Bytes, nonce: Bytes, other: string, aad2: string)
    ensures var o := c.open(c.derive(other, salt), nonce, c.seal(c.derive(secret, salt), nonce, plain, aad), aad2);
            Decrypt(c, other, Encrypt(c, secret, plain, aad, salt, nonce), aad2)
            == match o case Plain(text) => Ok(text) case Tampered => Err(FailedAuthentication) case Unusable => Err(MalformedBlob)
  {
    hide Split, Decode, Encode;
    var sealed := c.seal(c.derive(secret, salt), nonce, plain, aad);
    var blob := Encrypt(c, secret, plain, aad, salt, nonce);
    EncodeIsPlain(salt);
    EncodeIsPlain(nonce);
    EncodeIsPlain(sealed);
    SplitBlob(Encode(salt), Encode(nonce), Encode(sealed));
    DecodeEncode(salt);
    DecodeEncode(nonce);
    DecodeEncode(sealed);
    assert Split(blob, 3) == ["v1", Encode(salt), Encode(nonce), Encode(sealed)];
  }

  function Dots(text: string): nat {
    if text == "" then 0 else (if text[0] == '.' then 1 else 0) + Dots(text[1..])
  }

  lemma {:induction false} DotsFromFirst(text: string)
    ensures DotAt(text) == |text| <==> Dots(text) == 0
    ensures DotAt(text) < |text| ==> Dots(text) == 1 + Dots(text[DotAt(text) + 1..])
  {
    if text != "" && text[0] != '.' {
      DotsFromFirst(text[1..]);
      assert DotAt(text) < |text| ==> text[1..][DotAt(text[1..]) + 1..] == text[DotAt(text) + 1..];
    }
  }

  lemma {:induction false} PartsByDots(text: string, times: nat)
    ensures |Split(text, times)| == 1 + if Dots(text) < times then Dots(text) else times
    ensures times > 0 && Dots(text) > 0 ==> DotAt(text) < |text| && Split(text, times)[0] == text[..DotAt(text)]
  {
    DotsFromFirst(text);
    if times > 0 && DotAt(text) < |text| {
      PartsByDots(text[DotAt(text) + 1..], times - 1);
    }
  }

  /** A blob that does not have at least three dots is malformed, and one that does not begin with the version is of an unknown
      one, whatever the secret. */
  lemma OtherBlobsAreRefused(c: Cipher, secret: string, blob: string, aad: string)
    ensures Dots(blob) < 3 ==> Decrypt(c, secret, blob, aad) == Err(MalformedBlob)
    ensures Dots(blob) >= 3 && !("v1." <= blob) ==> Decrypt(c, secret, blob, aad) == Err(UnknownVersion)
    ensures Decrypt(c, secret, blob, aad).Ok? ==> Dots(blob) >= 3 && "v1." <= blob
  {
    hide Split, Decode, Dots;
    PartsByDots(blob, 3);
    if Dots(blob) >= 3 {
      var i := DotAt(blob);
      assert blob[..i] == "v1" ==> blob[..3] == "v1.";
      if "v1." <= blob {
        assert blob[0] == 'v' && blob[1] == '1' && blob[2] == '.';
        assert i == 2;
      }
    }
  }

  /** Opening a sealed blob undoes the sealing, for every cipher that opens what it sealed. */
  lemma DecryptEncrypt(c: Cipher, secret: string, plain: string, aad: string, salt: Bytes, nonce: Bytes)
    requires Opens(c) && Nonce(nonce)
    ensures Decrypt(c, secret, Encrypt(c, secret, plain, aad, salt, nonce), aad) == Ok(plain)
  {
    hide Decrypt, Encrypt;
    DecryptSealed(c, secret, plain, aad, salt, nonce, secret, aad);
    var k := c.derive(secret, salt);
    assert c.open(k, nonce, c.seal(k, nonce, plain, aad), aad) == Plain(plain);
  }

  /** Under any secret and associated data a sealed blob opens if and only if some text seals there to the same bytes. */
  lemma DecryptElsewhere(c: Cipher, secret: string, plain: string, aad: string, salt: Bytes, nonce: Bytes, other: string, aad2: string)
    requires Opens(c) && OnlySealedOpens(c) && Nonce(nonce)
    ensures Decrypt(c, other, Encrypt(c, secret, plain, aad, salt, nonce), aad2).Ok?
            <==> SealsAlike(c, nonce, c.derive(secret, salt), plain, aad, c.derive(other, salt), aad2)
  {
    hide Decrypt, Encrypt;
    DecryptSealed(c, secret, plain, aad, salt, nonce, other, aad2);
    var k, l := c.derive(secret, salt), c.derive(other, salt);
    var sealed := c.seal(k, nonce, plain, aad);
    var o := c.open(l, nonce, sealed, aad2);
    if o.Plain? {
      assert c.seal(l, nonce, o.text, aad2) == sealed;
    }
    if SealsAlike(c, nonce, k, plain, aad, l, aad2) {
      var q :| c.seal(l, nonce, q, aad2) == sealed;
      assert c.open(l, nonce, c.seal(l, nonce, q, aad2), aad2) == Plain(q);
    }
  }

  /** With an ideal cipher there is no such coincidence. */
  lemma IdealSealsApart(c: Cipher, n: Bytes, salt: Bytes, secret: string, p: string, a: string, other: string, b: string)
    requires Ideal(c) && (secret != other || a != b)
    ensures !SealsAlike(c, n, c.derive(secret, salt), p, a, c.derive(other, salt), b)
  {
    var k, l := c.derive(secret, salt), c.derive(other, salt);
    forall q
      ensures c.seal(l, n, q, b) != c.seal(k, n, p, a)
    {
    }
  }

  // ---- associated data ----------------------------------------------------------------------------------

  datatype Slot = Slot(id: string, provider: string)

  function Aad(s: Slot): string {
    s.id + ":" + s.provider
  }

  predicate EndsWith(text: string, tail: string) {
    |tail| <= |text| && text[|text| - |tail|..] == tail
  }

  /** Two different providers can share associated data, for some tenants, exactly when one provider's name ends in a
      colon followed by the other's. */
  lemma SharedAadExactly(p: string, q: string)
    requires p != q
    ensures (exists i, j :: Aad(Slot(i, p)) == Aad(Slot(j, q))) <==> EndsWith(p, ":" + q) || EndsWith(q, ":" + p)
  {
    if EndsWith(p, ":" + q) {
      var j := ":" + p[..|p| - |":" + q|];
      assert p == p[..|p| - |":" + q|] + (":" + q);
      assert Aad(Slot("", p)) == Aad(Slot(j, q));
    }
    if EndsWith(q, ":" + p) {
      var i := ":" + q[..|q| - |":" + p|];
      assert q == q[..|q| - |":" + p|] + (":" + p);
      assert Aad(Slot(i, p)) == Aad(Slot("", q));
    }
    forall i, j | Aad(Slot(i, p)) == Aad(Slot(j, q))
      ensures EndsWith(p, ":" + q) || EndsWith(q, ":" + p)
    {
      if |p| > |q| {
        SharedAadEnds(i, p, j, q);
      } else {
        SharedAadEnds(j, q, i, p);
      }
    }
  }

  lemma SharedAadEnds(i: string, p: string, j: string, q: string)
    requires Aad(Slot(i, p)) == Aad(Slot(j, q)) && p != q && |p| >= |q|
    ensures EndsWith(p, ":" + q)
  {
    var a := Aad(Slot(i, p));
    assert a[|a| - |p|..] == p && a[|a| - |q|..] == q;
    assert |p| > |q|;
    assert a[|a| - |q| - 1..] == ":" + q;
    assert p[|p| - |q| - 1..] == a[|a| - |q| - 1..];
  }

  /** For providers without a colon the associated data tells every pair of tenant and provider apart. */
  lemma AadIsInjective(s: Slot, t: Slot)
    requires ':' !in s.provider && ':' !in t.provider && Aad(s) == Aad(t)
    ensures s == t
  {
    if s.provider == t.provider {
      assert Aad(s)[..|s.id|] == s.id && Aad(t)[..|t.id|] == t.id;
    } else {
      DifferentAad(s, t);
      assert false;
    }
  }

  lemma DifferentAad(s: Slot, t: Slot)
    requires ':' !in s.provider && ':' !in t.provider && s.provider != t.provider
    ensures Aad(s) != Aad(t)
  {
    ColonInside(s.provider, t.provider);
    ColonInside(t.provider, s.provider);
    SharedAadExactly(s.provider, t.provider);
    assert s == Slot(s.id, s.provider) && t == Slot(t.id, t.provider);
  }

  lemma ColonInside(p: string, q: string)
    ensures EndsWith(p, ":" + q) ==> ':' in p
  {
    if EndsWith(p, ":" + q) {
      assert p[|p| - |q| - 1..][0] == ':';
    }
  }

  // ---- the rows -------------------------------------------------------------------------------------------

  /** The cipher, the master secret and the fingerprint of a raw key. */
  datatype Env = Env(cipher: Cipher, secret: string, digest: string -> string)
  datatype Row = Row(blob: string, fingerprint: string, updated: int)
  type Rows = map<Slot, Row>

  datatype Op = Put(slot: Slot, raw: string, salt: Bytes, nonce: Bytes, now: int) | Remove(slot: Slot)

  function Apply(env: Env, rows: Rows, op: Op): Rows {
    match op
    case Put(slot, raw, salt, nonce, now) =>
      rows[slot := Row(Encrypt(env.cipher, env.secret, raw, Aad(slot), salt, nonce), env.digest(raw), now)]
    case Remove(slot) => rows - {slot}
  }

  datatype Fetched = NoRow | Key(raw: string) | Failed(error: VaultError)

  function Fetch(env: Env, rows: Rows, slot: Slot): Fetched {
    if slot !in rows then NoRow
    else
      match Decrypt(env.cipher, env.secret, rows[slot].blob, Aad(slot))
      case Ok(text) => Key(text)
      case Err(e) => Failed(e)
  }

  function RunOps(env: Env, ops: seq<Op>): Rows {
    if ops == [] then map[] else Apply(env, RunOps(env, ops[..|ops| - 1]), ops[|ops| - 1])
  }

  /** The key last put and not removed since. */
  function Latest(ops: seq<Op>, slot: Slot): Fetched {
    if ops == [] then NoRow
    else
      var last := ops[|ops| - 1];
      if last.slot != slot then Latest(ops[..|ops| - 1], slot) else if last.Put? then Key(last.raw) else NoRow
  }

  predicate ProperNonces(ops: seq<Op>) {
    forall i :: 0 <= i < |ops| && ops[i].Put? ==> Nonce(ops[i].nonce)
  }

  /** After any run of puts and removals, fetching a tenant's key for a provider returns the key last put there and
      not removed since, or nothing; and its fingerprint is that key's. */
  lemma {:induction false} FetchReturnsTheLatest(env: Env, ops: seq<Op>, slot: Slot)
    requires Opens(env.cipher) && ProperNonces(ops)
    ensures var rows := RunOps(env, ops); var latest := Latest(ops, slot);
            && Fetch(env, rows, slot) == latest
            && (slot in rows <==> latest.Key?)
            && (latest.Key? ==> rows[slot].fingerprint == env.digest(latest.raw))
  {
    hide Opens, Encrypt, Decrypt, Aad;
    if ops != [] {
      var last := ops[|ops| - 1];
      FetchReturnsTheLatest(env, ops[..|ops| - 1], slot);
      if last.Put? {
        DecryptEncrypt(env.cipher, env.secret, last.raw, Aad(last.slot), last.salt, last.nonce);
      }
    }
  }

  datatype KeyRecord = KeyRecord(slot: Slot, fingerprint: string, updated: int)

  function RecordOf(rows: Rows, slot: Slot): KeyRecord
    requires slot in rows
  {
    KeyRecord(slot, rows[slot].fingerprint, rows[slot].updated)
  }

  /** The last operation on the slot is this put. */
  predicate LastPut(ops: seq<Op>, slot: Slot, j: nat) {
    && j < |ops| && ops[j].Put? && ops[j].slot == slot
    && forall i | j < i < |ops| :: ops[i].slot != slot
  }

  lemma {:induction false} LatestIsLastPut(ops: seq<Op>, slot: Slot)
    ensures forall j: nat | LastPut(ops, slot, j) :: Latest(ops, slot) == Key(ops[j].raw)
    ensures Latest(ops, slot) == NoRow || exists j: nat :: LastPut(ops, slot, j)
  {
    if ops != [] {
      var n := |ops| - 1;
      LatestIsLastPut(ops[..n], slot);
      forall j: nat
        ensures LastPut(ops, slot, j) <==> if ops[n].slot == slot then j == n && ops[n].Put? else LastPut(ops[..n], slot, j)
        ensures LastPut(ops, slot, j) ==> j <= n && ops[j].Put?
      {
      }
      hide LastPut;
      assert forall j | 0 <= j < n :: ops[..n][j] == ops[j];
    }
  }

  lemma {:induction false} RowOfLastPut(env: Env, ops: seq<Op>, slot: Slot, j: nat)
    requires LastPut(ops, slot, j)
    ensures var rows := RunOps(env, ops);
            slot in rows && rows[slot].fingerprint == env.digest(ops[j].raw) && rows[slot].updated == ops[j].now
  {
    hide Encrypt, Aad;
    var n := |ops| - 1;
    if j < n {
      assert LastPut(ops[..n], slot, j);
      RowOfLastPut(env, ops[..n], slot, j);
    }
  }

  /** So, by the operations alone: where the last one on a slot was a put, a fetch returns its key and the row shows that
      key's fingerprint and the time it was put; where there was none, or it was a removal, a fetch returns nothing. */
  lemma LastPutIsFetched(env: Env, ops: seq<Op>, slot: Slot)
    requires Opens(env.cipher) && ProperNonces(ops)
    ensures var rows := RunOps(env, ops);
            && (forall j: nat | LastPut(ops, slot, j) ::
                  && Fetch(env, rows, slot) == Key(ops[j].raw)
                  && RecordOf(rows, slot) == KeyRecord(slot, env.digest(ops[j].raw), ops[j].now))
            && ((forall j: nat :: !LastPut(ops, slot, j)) ==> Fetch(env, rows, slot) == NoRow && slot !in rows)
  {
    hide Opens, RunOps, Latest, LastPut, Fetch;
    FetchReturnsTheLatest(env, ops, slot);
    LatestIsLastPut(ops, slot);
    forall j: nat | LastPut(ops, slot, j)
      ensures j < |ops| && ops[j].Put? && slot in RunOps(env, ops)
      ensures RecordOf(RunOps(env, ops), slot) == KeyRecord(slot, env.digest(ops[j].raw), ops[j].now)
    {
      RowOfLastPut(env, ops, slot, j);
      LastPutIs(ops, slot, j);
    }
  }

  lemma LastPutIs(ops: seq<Op>, slot: Slot, j: nat)
    requires LastPut(ops, slot, j)
    ensures j < |ops| && ops[j].Put?
  {
  }

  /** A row copied to another slot fails to open there if and only if no text seals, under the other slot's associated
      data, to the same bytes. */
  lemma MovedRowFailsToOpen(env: Env, rows: Rows, from: Slot, to: Slot, raw: string, salt: Bytes, nonce: Bytes, now: int)
    requires Opens(env.cipher) && OnlySealedOpens(env.cipher) && Nonce(nonce)
    ensures var stored := Apply(env, rows, Put(from, raw, salt, nonce, now)); var k := env.cipher.derive(env.secret, salt);
            Fetch(env, stored[to := stored[from]], to).Failed? <==> !SealsAlike(env.cipher, nonce, k, raw, Aad(from), k, Aad(to))
  {
    hide Opens, OnlySealedOpens, SealsAlike, Encrypt, Decrypt, Aad;
    DecryptElsewhere(env.cipher, env.secret, raw, Aad(from), salt, nonce, env.secret, Aad(to));
  }

  /** After the master secret changes, a stored key fails to open if and only if no text seals, under the new key, to the
      same bytes. */
  lemma RotatedSecretOpensNothing(env: Env, rows: Rows, slot: Slot, raw: string, salt: Bytes, nonce: Bytes, now: int, secret: string)
    requires Opens(env.cipher) && OnlySealedOpens(env.cipher) && Nonce(nonce)
    ensures Fetch(env.(secret := secret), Apply(env, rows, Put(slot, raw, salt, nonce, now)), slot).Failed?
            <==> !SealsAlike(env.cipher, nonce, env.cipher.derive(env.secret, salt), raw, Aad(slot),
                             env.cipher.derive(secret, salt), Aad(slot))
  {
    hide Opens, OnlySealedOpens, SealsAlike, Encrypt, Decrypt, Aad;
    DecryptElsewhere(env.cipher, env.secret, raw, Aad(slot), salt, nonce, secret, Aad(slot));
  }

  /** With an ideal cipher, a row moved to another tenant or colon-free provider does not open, and neither does any row
      under another secret. */
  lemma IdealRowsOpenOnlyAtHome(env: Env, rows: Rows, from: Slot, to: Slot, raw: string, salt: Bytes, nonce: Bytes, now: int, secret: string)
    requires Opens(env.cipher) && OnlySealedOpens(env.cipher) && Ideal(env.cipher) && Nonce(nonce)
    requires ':' !in from.provider && ':' !in to.provider
    ensures var stored := Apply(env, rows, Put(from, raw, salt, nonce, now));
            && (from != to ==> Fetch(env, stored[to := stored[from]], to).Failed?)
            && (secret != env.secret ==> Fetch(env.(secret := secret), stored, from).Failed?)
  {
    hide Opens, OnlySealedOpens, SealsAlike, Ideal, Apply, Fetch, Aad;
    MovedRowFailsToOpen(env, rows, from, to, raw, salt, nonce, now);
    RotatedSecretOpensNothing(env, rows, from, raw, salt, nonce, now, secret);
    if from != to {
      if Aad(from) == Aad(to) {
        AadIsInjective(from, to);
        assert false;
      }
      IdealSealsApart(env.cipher, nonce, salt, env.secret, raw, Aad(from), env.secret, Aad(to));
    }
    if secret != env.secret {
      IdealSealsApart(env.cipher, nonce, salt, env.secret, raw, Aad(from), secret, Aad(from));
    }
  }

  // ---- the vault ------------------------------------------------------------------------------------------

  predicate SlotLe(a: Slot, b: Slot) {
    (a.id != b.id && StringLe(a.id, b.id)) || (a.id == b.id && StringLe(a.provider, b.provider))
  }

  lemma SlotLeIsTotal()
    ensures TotalOrder(SlotLe)
  {
    hide StringLe;
    forall a, b
      ensures (SlotLe(a, b) || SlotLe(b, a)) && (SlotLe(a, b) && SlotLe(b, a) ==> a == b)
    {
      StringLeTotal(a.id, b.id);
      StringLeTotal(a.provider, b.provider);
    }
    forall a, b, c | SlotLe(a, b) && SlotLe(b, c)
      ensures SlotLe(a, c)
    {
      SlotLeTransitive(a, b, c);
    }
  }

  lemma SlotLeTransitive(a: Slot, b: Slot, c: Slot)
    requires SlotLe(a, b) && SlotLe(b, c)
    ensures SlotLe(a, c)
  {
    hide StringLe;
    StringLeTotal(a.id, b.id);
    if StringLe(a.id, b.id) && StringLe(b.id, c.id) {
      StringLeTransitive(a.id, b.id, c.id);
    }
    if StringLe(a.provider, b.provider) && StringLe(b.provider, c.provider) {
      StringLeTransitive(a.provider, b.provider, c.provider);
    }
  }

  /** The tenant's rows and no others, in strictly increasing order of provider. */
  ghost predicate Lists(records: seq<KeyRecord>, rows: Rows, id: string) {
    && (forall i :: 0 <= i < |records| ==>
          records[i].slot in rows && records[i].slot.id == id && records[i] == RecordOf(rows, records[i].slot))
    && (forall i, j :: 0 <= i < j < |records| ==>
          records[i].slot.provider != records[j].slot.provider && StringLe(records[i].slot.provider, records[j].slot.provider))
    && (forall s :: s in rows && s.id == id ==> RecordOf(rows, s) in records)
  }

  class InMemoryByokVault {
    const env: Env
    var rows: Rows

    constructor (env: Env)
      ensures this.env == env && rows == map[]
    {
      this.env := env;
      rows := map[];
    }

    method Store(id: string, provider: string, raw: string, salt: Bytes, nonce: Bytes, now: int) returns (fingerprint: string)
      modifies this
      ensures rows == Apply(env, old(rows), Put(Slot(id, provider), raw, salt, nonce, now)) && fingerprint == env.digest(raw)
    {
      fingerprint := env.digest(raw);
      var blob := Encrypt(env.cipher, env.secret, raw, Aad(Slot(id, provider)), salt, nonce);
      rows := rows[Slot(id, provider) := Row(blob, fingerprint, now)];
    }

    method FetchKey(id: string, provider: string) returns (r: Fetched)
      ensures r == Fetch(env, rows, Slot(id, provider))
    {
      if Slot(id, provider) !in rows {
        return NoRow;
      }
      var result := Decrypt(env.cipher, env.secret, rows[Slot(id, provider)].blob, Aad(Slot(id, provider)));
      r := if result.Ok? then Key(result.text) else Failed(result.error);
    }

    method Delete(id: string, provider: string) returns (existed: bool)
      modifies this
      ensures rows == Apply(env, old(rows), Remove(Slot(id, provider))) && existed == (Slot(id, provider) in old(rows))
    {
      existed := Slot(id, provider) in rows;
      rows := rows - {Slot(id, provider)};
    }

    /** Sort all rows by tenant and provider, keep the tenant's. */
    method ListKeys(id: string) returns (records: seq<KeyRecord>)
      ensures Lists(records, rows, id)
    {
      hide SlotLe, TotalOrder;
      var pending := rows.Keys;
      var slots: seq<Slot> := [];
      while pending != {}
        invariant pending <= rows.Keys
        invariant forall s :: s in slots <==> s in rows.Keys - pending
        invariant forall i, j :: 0 <= i < j < |slots| ==> slots[i] != slots[j]
      {
        var s :| s in pending;
        assert s !in slots;
        pending := pending - {s};
        slots := slots + [s];
      }
      var sorted := SortedSet(slots, SlotLe);
      SlotLeIsTotal();
      SortedSetIs(slots, SlotLe);
      records := [];
      for i := 0 to |sorted|
        invariant records == OfTenant(rows, sorted[..i], id)
      {
        assert sorted[..i + 1][..i] == sorted[..i] && sorted[..i + 1] <= sorted;
        assert sorted[i] in sorted;
        if sorted[i].id == id {
          records := records + [RecordOf(rows, sorted[i])];
        }
      }
      assert sorted[..|sorted|] == sorted;
      OfTenantLists(rows, sorted, id);
    }
  }

  /** The records of the tenant's slots, in the order of the slots. */
  function OfTenant(rows: Rows, slots: seq<Slot>, id: string): seq<KeyRecord> {
    if slots == [] then []
    else
      var n := |slots| - 1;
      var front := OfTenant(rows, slots[..n], id);
      if slots[n].id == id && slots[n] in rows then front + [RecordOf(rows, slots[n])] else front
  }

  lemma {:induction false} OfTenantAre(rows: Rows, slots: seq<Slot>, id: string, r: KeyRecord)
    ensures r in OfTenant(rows, slots, id)
            <==> r.slot in slots && r.slot in rows && r.slot.id == id && r == RecordOf(rows, r.slot)
  {
    if slots != [] {
      var n := |slots| - 1;
      OfTenantAre(rows, slots[..n], id, r);
      assert r.slot in slots <==> r.slot in slots[..n] || r.slot == slots[n];
    }
  }

  lemma {:induction false} OfTenantInOrder(rows: Rows, slots: seq<Slot>, id: string)
    requires Increasing(slots, SlotLe)
    ensures var t := OfTenant(rows, slots, id);
            forall i, j :: 0 <= i < j < |t| ==> t[i].slot != t[j].slot && SlotLe(t[i].slot, t[j].slot)
  {
    hide SlotLe;
    if slots != [] {
      var n := |slots| - 1;
      var front := OfTenant(rows, slots[..n], id);
      OfTenantInOrder(rows, slots[..n], id);
      forall i | 0 <= i < |front|
        ensures front[i].slot != slots[n] && SlotLe(front[i].slot, slots[n])
      {
        OfTenantAre(rows, slots[..n], id, front[i]);
        var k :| 0 <= k < n && slots[..n][k] == front[i].slot;
        assert slots[k] == front[i].slot;
      }
    }
  }

  lemma OfTenantLists(rows: Rows, slots: seq<Slot>, id: string)
    requires Increasing(slots, SlotLe) && forall s :: s in slots <==> s in rows
    ensures Lists(OfTenant(rows, slots, id), rows, id)
  {
    hide StringLe, OfTenant, Increasing;
    var t := OfTenant(rows, slots, id);
    OfTenantInOrder(rows, slots, id);
    forall r
      ensures r in t <==> r.slot in rows && r.slot.id == id && r == RecordOf(rows, r.slot)
    {
      OfTenantAre(rows, slots, id, r);
    }
    forall i, j | 0 <= i < j < |t|
      ensures t[i].slot.provider != t[j].slot.provider && StringLe(t[i].slot.provider, t[j].slot.provider)
    {
      OfTenantAre(rows, slots, id, t[i]);
      OfTenantAre(rows, slots, id, t[j]);
      assert t[i].slot == Slot(id, t[i].slot.provider) && t[j].slot == Slot(id, t[j].slot.provider);
      assert t[i].slot != t[j].slot && SlotLe(t[i].slot, t[j].slot);
    }
    forall s | s in rows && s.id == id
      ensures RecordOf(rows, s) in t
    {
      assert RecordOf(rows, s).slot == s;
    }
  }

  /** After any run, the tenant's list shows a provider exactly when a key put for it has not been removed since, with
      that key's fingerprint. */
  lemma ListShowsTheLatest(env: Env, ops: seq<Op>, records: seq<KeyRecord>, slot: Slot)
    requires Opens(env.cipher) && ProperNonces(ops) && Lists(records, RunOps(env, ops), slot.id)
    ensures (exists i :: 0 <= i < |records| && records[i].slot == slot) <==> Latest(ops, slot).Key?
    ensures forall i :: 0 <= i < |records| && records[i].slot == slot ==>
              Latest(ops, slot).Key? && records[i].fingerprint == env.digest(Latest(ops, slot).raw)
  {
    hide Opens, RunOps, Latest;
    FetchReturnsTheLatest(env, ops, slot);
    var rows := RunOps(env, ops);
    if slot in rows {
      var r := RecordOf(rows, slot);
      var i :| 0 <= i < |records| && records[i] == r;
    }
  }
}
