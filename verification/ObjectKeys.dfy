/** UUIDs and the keys under which objects are stored. */
module ObjectKeys {
  import opened Wrappers

  predicate IsHexDigit(c: char) {
    '0' <= c <= '9' || 'a' <= c <= 'f'
  }

  // The canonical text of a UUID: 8-4-4-4-12 lower-case hexadecimal digits.
  predicate IsUuid(s: string) {
    && |s| == 36
    && forall i :: 0 <= i < |s| ==>
         if i == 8 || i == 13 || i == 18 || i == 23 then s[i] == '-' else IsHexDigit(s[i])
  }

  const NIL_UUID := "00000000-0000-0000-0000-000000000000"

  type Uuid = s: string | IsUuid(s) witness NIL_UUID

  // Uuid::parse_str, left uninterpreted.
  type UuidParser = string -> Option<Uuid>

  const ARCHIVE_PREFIX := "archive/"
  const AVATAR_PREFIX := "avatar/"
  const TEMP_PREFIX := "temp/"

  function TempObjectKey(session: Uuid, file: Uuid): string {
    TEMP_PREFIX + session + "/" + file
  }

  function ArchiveDestKey(record: Uuid, file: Uuid): string {
    ARCHIVE_PREFIX + record + "/" + file
  }

  function AvatarDestKey(user: Uuid): string {
    AVATAR_PREFIX + user
  }

  predicate StartsWith(s: string, prefix: string) {
    prefix <= s
  }

  // The part of the key space that belongs to one record.
  predicate BelongsTo(key: string, record: Uuid) {
    StartsWith(key, ARCHIVE_PREFIX + record + "/")
  }

  /** A destination key names exactly one record and one file. */
  lemma ArchiveDestKeyIsInjective(r1: Uuid, f1: Uuid, r2: Uuid, f2: Uuid)
    ensures ArchiveDestKey(r1, f1) == ArchiveDestKey(r2, f2) <==> r1 == r2 && f1 == f2
  {
    var a, b := ArchiveDestKey(r1, f1), ArchiveDestKey(r2, f2);
    assert a[8..44] == r1 && a[45..] == f1;
    assert b[8..44] == r2 && b[45..] == f2;
  }

  lemma ArchiveDestKeyBelongs(record: Uuid, file: Uuid)
    ensures BelongsTo(ArchiveDestKey(record, file), record)
    ensures StartsWith(ArchiveDestKey(record, file), ARCHIVE_PREFIX)
  {
    var head := ARCHIVE_PREFIX + record + "/";
    assert ArchiveDestKey(record, file) == head + file;
    assert head == ARCHIVE_PREFIX + (record + "/");
  }

  /** No key belongs to two records. */
  lemma BelongsToOneRecord(key: string, r1: Uuid, r2: Uuid)
    requires BelongsTo(key, r1) && BelongsTo(key, r2)
    ensures r1 == r2 && StartsWith(key, ARCHIVE_PREFIX)
  {
    assert key[8..44] == (ARCHIVE_PREFIX + r1 + "/")[8..44] == r1;
    assert key[8..44] == (ARCHIVE_PREFIX + r2 + "/")[8..44] == r2;
    assert key[..8] == (ARCHIVE_PREFIX + r1 + "/")[..8] == ARCHIVE_PREFIX;
  }

  /** The three areas of the bucket do not meet. */
  lemma PrefixesAreDisjoint(key: string)
    ensures !(StartsWith(key, ARCHIVE_PREFIX) && StartsWith(key, AVATAR_PREFIX))
    ensures !(StartsWith(key, ARCHIVE_PREFIX) && StartsWith(key, TEMP_PREFIX))
    ensures !(StartsWith(key, AVATAR_PREFIX) && StartsWith(key, TEMP_PREFIX))
  {
    if StartsWith(key, ARCHIVE_PREFIX) {
      assert key[1] == ARCHIVE_PREFIX[1] == 'r';
    }
    if StartsWith(key, AVATAR_PREFIX) {
      assert key[1] == AVATAR_PREFIX[1] == 'v';
    }
    if StartsWith(key, TEMP_PREFIX) {
      assert key[1] == TEMP_PREFIX[1] == 'e';
    }
  }
}
