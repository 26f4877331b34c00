/**
 * The DBB1 container of an encrypted backup (backup-crypto.service.ts):
 * magic, salt, iv, ciphertext, authentication tag.
 *
 * AES-256-GCM (section 7 of NIST SP 800-38D) keyed by a passphrase and a salt is
 * a parameter: two functions that obey `GcmLaws`. The functions take the passphrase
 * itself; deriving the key from it is part of them.
 */
module BackupCrypto {
  import opened Prelude

  newtype byte = x: int | 0 <= x < 256

  type Bytes = seq<byte>

  const MAGIC: Bytes := [0x44, 0x42, 0x42, 0x31]  // "DBB1"
  const SALT_LEN := 16
  const IV_LEN := 12
  const TAG_LEN := 16
  const HEADER_LEN := |MAGIC| + SALT_LEN + IV_LEN

  type Salt = s: Bytes | |s| == SALT_LEN witness seq(SALT_LEN, _ => 0)
  type Iv = s: Bytes | |s| == IV_LEN witness seq(IV_LEN, _ => 0)
  type Tag = s: Bytes | |s| == TAG_LEN witness seq(TAG_LEN, _ => 0)

  datatype Sealed = Sealed(ciphertext: Bytes, tag: Tag)

  datatype Gcm = Gcm(
    seal: (string, Salt, Iv, Bytes) -> Sealed,
    open: (string, Salt, Iv, Sealed) -> Option<Bytes>)

  /** Opening accepts exactly what sealing under the same passphrase, salt and iv produces. */
  ghost predicate GcmLaws(g: Gcm) {
    && (forall k, s, iv, p :: |g.seal(k, s, iv, p).ciphertext| == |p|)
    && (forall k, s, iv, p :: g.open(k, s, iv, g.seal(k, s, iv, p)) == Some(p))
    && (forall k, s, iv, c :: g.open(k, s, iv, c).Some? ==> g.seal(k, s, iv, g.open(k, s, iv, c).value) == c)
  }

  /**
   * No passphrase of `keys` opens what another one sealed. The set is kept explicit:
   * with a 16-byte tag no cipher has this for every two texts that exist.
   */
  ghost predicate CommittingOn(g: Gcm, keys: set<string>) {
    forall k, k', s, iv, p :: k in keys && k' in keys && k != k' ==> g.open(k', s, iv, g.seal(k, s, iv, p)).None?
  }

  datatype CryptoError = TooSmall | NotEncrypted | EmptyRange | AuthFailed

  predicate IsEncryptedFile(file: Bytes) {
    StartsWith(file, MAGIC)
  }

  predicate IsEncryptedName(name: string) {
    EndsWith(name, ".enc")
  }

  /** What encryptBackupFile leaves on disk for this salt and iv. */
  function Container(g: Gcm, pass: string, salt: Salt, iv: Iv, plain: Bytes): Bytes {
    var c := g.seal(pass, salt, iv, plain);
    MAGIC + salt + iv + c.ciphertext + c.tag
  }

  /**
   * decryptBackupFile on the bytes of a file. The read range of the ciphertext is
   * [HEADER_LEN, size - TAG_LEN - 1] with both ends included, so a file without
   * ciphertext asks for an inverted range, which the stream refuses.
   */
  function Unseal(g: Gcm, file: Bytes, pass: string): Result<Bytes, CryptoError> {
    if |file| < HEADER_LEN + TAG_LEN then Err(TooSmall)
    else if file[..|MAGIC|] != MAGIC then Err(NotEncrypted)
    else
      var tag := file[|file| - TAG_LEN..];
      var salt := file[|MAGIC|..|MAGIC| + SALT_LEN];
      var iv := file[|MAGIC| + SALT_LEN..HEADER_LEN];
      var first, last := HEADER_LEN, |file| - TAG_LEN - 1;
      if first > last then Err(EmptyRange)
      else
        match g.open(pass, salt, iv, Sealed(file[first..last + 1], tag))
        case Some(plain) => Ok(plain)
        case None => Err(AuthFailed)
  }

  /** The layout byte by byte: "DBB1", 16 bytes of salt, 12 of iv, the ciphertext, 16 of tag. */
  lemma ContainerLayout(g: Gcm, pass: string, salt: Salt, iv: Iv, plain: Bytes)
    requires GcmLaws(g)
    ensures var f := Container(g, pass, salt, iv, plain);
            && |f| == 48 + |plain|
            && f[..4] == ['D' as byte, 'B' as byte, 'B' as byte, '1' as byte]
            && f[4..20] == salt && f[20..32] == iv
            && f[32..|f| - 16] == g.seal(pass, salt, iv, plain).ciphertext && f[|f| - 16..] == g.seal(pass, salt, iv, plain).tag
  {
  }

  /** Which file is refused for what. */
  lemma RefusalReasons(g: Gcm, file: Bytes, pass: string)
    requires GcmLaws(g)
    ensures Unseal(g, file, pass) == Err(TooSmall) <==> |file| < 48
    ensures Unseal(g, file, pass) == Err(NotEncrypted) <==> |file| >= 48 && !IsEncryptedFile(file)
    ensures Unseal(g, file, pass) == Err(EmptyRange) <==> |file| == 48 && IsEncryptedFile(file)
  {
  }

  lemma ContainerSlices(g: Gcm, pass: string, salt: Salt, iv: Iv, plain: Bytes)
    requires GcmLaws(g)
    ensures var f := Container(g, pass, salt, iv, plain);
            var c := g.seal(pass, salt, iv, plain);
            && |f| == HEADER_LEN + |plain| + TAG_LEN
            && f[..|MAGIC|] == MAGIC
            && f[|MAGIC|..|MAGIC| + SALT_LEN] == salt
            && f[|MAGIC| + SALT_LEN..HEADER_LEN] == iv
            && f[HEADER_LEN..|f| - TAG_LEN] == c.ciphertext
            && f[|f| - TAG_LEN..] == c.tag
  {
  }

  /** Decrypting what was encrypted gives the plaintext back, except for the empty one. */
  lemma RoundTrip(g: Gcm, pass: string, salt: Salt, iv: Iv, plain: Bytes)
    requires GcmLaws(g)
    ensures Unseal(g, Container(g, pass, salt, iv, plain), pass) == Ok(plain) <==> plain != []
    ensures plain == [] ==> Unseal(g, Container(g, pass, salt, iv, plain), pass) == Err(EmptyRange)
  {
    ContainerSlices(g, pass, salt, iv, plain);
    var c := g.seal(pass, salt, iv, plain);
    assert Sealed(c.ciphertext, c.tag) == c;
  }

  /**
   * Authenticity: a file decrypts to `plain` exactly when encrypting `plain` under this
   * passphrase, with the salt and iv the file itself carries, could have written it.
   */
  lemma AcceptsExactlyContainers(g: Gcm, file: Bytes, pass: string, plain: Bytes)
    requires GcmLaws(g)
    ensures Unseal(g, file, pass) == Ok(plain)
            <==> plain != [] && exists salt: Salt, iv: Iv :: file == Container(g, pass, salt, iv, plain)
  {
    if Unseal(g, file, pass) == Ok(plain) {
      var tag := file[|file| - TAG_LEN..];
      var salt := file[|MAGIC|..|MAGIC| + SALT_LEN];
      var iv := file[|MAGIC| + SALT_LEN..HEADER_LEN];
      var ct := file[HEADER_LEN..|file| - TAG_LEN];
      assert g.seal(pass, salt, iv, plain) == Sealed(ct, tag);
      assert file == MAGIC + salt + iv + ct + tag;
      assert file == Container(g, pass, salt, iv, plain);
    }
    if plain != [] && exists salt: Salt, iv: Iv :: file == Container(g, pass, salt, iv, plain) {
      var salt: Salt, iv: Iv :| file == Container(g, pass, salt, iv, plain);
      RoundTrip(g, pass, salt, iv, plain);
    }
  }

  /** Another passphrase of a committing set never opens the file. */
  lemma OtherPassphraseFails(g: Gcm, keys: set<string>, file: Bytes, pass: string, other: string, plain: Bytes)
    requires GcmLaws(g) && CommittingOn(g, keys)
    requires pass in keys && other in keys && other != pass
    requires Unseal(g, file, pass) == Ok(plain)
    ensures Unseal(g, file, other) == Err(AuthFailed)
  {
    AcceptsExactlyContainers(g, file, pass, plain);
    var salt: Salt, iv: Iv :| file == Container(g, pass, salt, iv, plain);
    ContainerSlices(g, pass, salt, iv, plain);
    var c := g.seal(pass, salt, iv, plain);
    assert Sealed(c.ciphertext, c.tag) == c;
  }

  /** Decryption only ever shrinks: it drops the header and the tag. */
  lemma UnsealLength(g: Gcm, file: Bytes, pass: string)
    requires GcmLaws(g) && Unseal(g, file, pass).Ok?
    ensures |file| == |Unseal(g, file, pass).value| + HEADER_LEN + TAG_LEN
    ensures IsEncryptedFile(file)
  {
    var plain := Unseal(g, file, pass).value;
    AcceptsExactlyContainers(g, file, pass, plain);
    var salt: Salt, iv: Iv :| file == Container(g, pass, salt, iv, plain);
    ContainerSlices(g, pass, salt, iv, plain);
  }

  // ── The laws can be met: a cipher that tags every text with its passphrase's number ──

  function NumberTag(n: nat): Tag {
    if n < 256 then [n as byte] + seq(TAG_LEN - 1, _ => 0) else seq(TAG_LEN, _ => 1)
  }

  /** `GcmLaws` and `CommittingOn` hold together, for any two passphrases. */
  lemma LawsAreConsistent(k0: string, k1: string) returns (g: Gcm)
    ensures GcmLaws(g) && CommittingOn(g, {k0, k1})
  {
    var number := (k: string) => if k == k0 then 0 else if k == k1 then 1 else 2;
    g := Gcm(
      (k, s, iv, p) => Sealed(p, NumberTag(number(k))),
      (k, s, iv, c: Sealed) => if c.tag == NumberTag(number(k)) then Some(c.ciphertext) else None);
    assert NumberTag(0)[0] != NumberTag(1)[0];
  }
}
