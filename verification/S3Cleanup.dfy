/**
 * The periodic sweep: list the store's old objects, read the keys the database still
 * mentions, delete the difference. One instance at a time, by an advisory lock.
 */
module S3Cleanup {
  import opened AvatarKeys
  import opened Clock
  import opened ObjectKeys
  import opened ObjectStorage
  import opened Wrappers

  // One entry of a listing page; S3's answer may leave out either part.
  datatype Entry = Entry(key: Option<string>, lastModified: Option<int>)

  datatype Page = Page(contents: seq<Entry>, truncated: Option<bool>, nextToken: Option<string>)

  // How S3 answers a listing: request number and continuation token -> a page or a failure.
  type Listing = (nat, Option<string>) -> Option<Page>

  // The loop asks on only after a truncated page that names a token.
  predicate EndsListing(page: Page) {
    page.truncated != Some(true) || page.nextToken.None?
  }

  predicate EndsWithin(s3: Listing, i: nat, token: Option<string>, limit: nat)
    decreases limit
  {
    && limit > 0
    && match s3(i, token)
       case None => true
       case Some(page) => EndsListing(page) || EndsWithin(s3, i + 1, page.nextToken, limit - 1)
  }

  // All entries of all pages from request i on; nothing when some request fails.
  function Walk(s3: Listing, i: nat, token: Option<string>, limit: nat): Option<seq<Entry>>
    requires EndsWithin(s3, i, token, limit)
    decreases limit
  {
    match s3(i, token)
    case None => None
    case Some(page) =>
      if EndsListing(page) then Some(page.contents)
      else
        match Walk(s3, i + 1, page.nextToken, limit - 1)
        case None => None
        case Some(rest) => Some(page.contents + rest)
  }

  predicate ListedAsOld(entry: Entry, nowSeconds: int, minAge: nat) {
    && entry.key.Some?
    && (minAge == 0 || (entry.lastModified.Some? && OldEnough(nowSeconds, entry.lastModified.value, minAge)))
  }

  function OldKeyOf(entry: Entry, nowSeconds: int, minAge: nat): seq<string> {
    if ListedAsOld(entry, nowSeconds, minAge) then [entry.key.value] else []
  }

  function OldKeys(entries: seq<Entry>, nowSeconds: int, minAge: nat): seq<string> {
    if entries == [] then [] else OldKeyOf(entries[0], nowSeconds, minAge) + OldKeys(entries[1..], nowSeconds, minAge)
  }

  /** What the filter lets through: the keys of entries that name one and are old enough. */
  lemma {:induction false} OldKeysAre(entries: seq<Entry>, nowSeconds: int, minAge: nat, k: string)
    ensures k in OldKeys(entries, nowSeconds, minAge) <==>
      exists e :: e in entries && ListedAsOld(e, nowSeconds, minAge) && e.key == Some(k)
  {
    if entries != [] {
      OldKeysAre(entries[1..], nowSeconds, minAge, k);
      assert entries == [entries[0]] + entries[1..];
      assert k in OldKeyOf(entries[0], nowSeconds, minAge) <==>
        ListedAsOld(entries[0], nowSeconds, minAge) && entries[0].key == Some(k);
    }
  }

  lemma Associative(a: seq<string>, b: seq<string>, c: seq<string>)
    ensures a + (b + c) == (a + b) + c
  {
  }

  lemma {:induction false} OldKeysConcat(a: seq<Entry>, b: seq<Entry>, nowSeconds: int, minAge: nat)
    ensures OldKeys(a + b, nowSeconds, minAge) == OldKeys(a, nowSeconds, minAge) + OldKeys(b, nowSeconds, minAge)
  {
    if a == [] {
      assert a + b == b;
    } else {
      OldKeysConcat(a[1..], b, nowSeconds, minAge);
      assert (a + b)[0] == a[0] && (a + b)[1..] == a[1..] + b;
      Associative(OldKeyOf(a[0], nowSeconds, minAge), OldKeys(a[1..], nowSeconds, minAge),
                  OldKeys(b, nowSeconds, minAge));
    }
  }

  function Prepend(seen: seq<Entry>, rest: Option<seq<Entry>>): Option<seq<Entry>> {
    match rest
    case None => None
    case Some(entries) => Some(seen + entries)
  }

  // The loop stands before request i: what it has seen and what is to come make up the whole.
  ghost predicate Walking(s3: Listing, i: nat, token: Option<string>, left: nat, seen: seq<Entry>,
                          whole: Option<seq<Entry>>) {
    EndsWithin(s3, i, token, left) && Prepend(seen, Walk(s3, i, token, left)) == whole
  }

  lemma WalkOn(s3: Listing, i: nat, token: Option<string>, limit: nat, seen: seq<Entry>)
    requires EndsWithin(s3, i, token, limit)
    ensures s3(i, token).None? ==> Walk(s3, i, token, limit) == None
    ensures s3(i, token).Some? ==>
      var page := s3(i, token).value;
      Prepend(seen, Walk(s3, i, token, limit)) ==
        if EndsListing(page) then Some(seen + page.contents)
        else Prepend(seen + page.contents, Walk(s3, i + 1, page.nextToken, limit - 1))
  {
    if s3(i, token).Some? && !EndsListing(s3(i, token).value) {
      var page := s3(i, token).value;
      var rest := Walk(s3, i + 1, page.nextToken, limit - 1);
      if rest.Some? {
        assert seen + (page.contents + rest.value) == (seen + page.contents) + rest.value;
      }
    }
  }

  // The pages S3 serves from request `first` on: each but the last is truncated and names
  // the token that the next one answers to.
  ghost predicate ServesFrom(s3: Listing, pages: seq<Page>, first: nat, token: Option<string>) {
    && pages != [] && s3(first, token) == Some(pages[0])
    && (forall i :: 0 <= i < |pages| - 1 ==>
          && pages[i].truncated == Some(true) && pages[i].nextToken.Some?
          && s3(first + i + 1, pages[i].nextToken) == Some(pages[i + 1]))
  }

  // A listing from start to end. A last page that is truncated all the same, but names no
  // token, cannot be followed.
  ghost predicate Serves(s3: Listing, pages: seq<Page>) {
    && ServesFrom(s3, pages, 0, None)
    && (pages[|pages| - 1].truncated != Some(true) || pages[|pages| - 1].nextToken.None?)
  }

  // A listing that breaks off: the request after these pages fails.
  ghost predicate BreaksOff(s3: Listing, pages: seq<Page>) {
    if pages == [] then s3(0, None).None?
    else
      var last := pages[|pages| - 1];
      && ServesFrom(s3, pages, 0, None)
      && last.truncated == Some(true) && last.nextToken.Some? && s3(|pages|, last.nextToken).None?
  }

  ghost predicate OnSomePage(pages: seq<Page>, e: Entry) {
    exists i :: 0 <= i < |pages| && e in pages[i].contents
  }

  lemma {:induction false} ServedPagesEnd(s3: Listing, pages: seq<Page>, first: nat, token: Option<string>, limit: nat)
    requires ServesFrom(s3, pages, first, token) && EndsWithin(s3, first, token, limit)
    requires pages[|pages| - 1].truncated != Some(true) || pages[|pages| - 1].nextToken.None?
    ensures Walk(s3, first, token, limit).Some?
    ensures forall e :: e in Walk(s3, first, token, limit).value <==> OnSomePage(pages, e)
    decreases |pages|
  {
    if |pages| > 1 {
      ServesRest(s3, pages, first, token);
      ServedPagesEnd(s3, pages[1..], first + 1, pages[0].nextToken, limit - 1);
      forall e ensures OnSomePage(pages, e) <==> e in pages[0].contents || OnSomePage(pages[1..], e) {
        OnFirstOrRest(pages, e);
      }
    } else {
      forall e ensures OnSomePage(pages, e) <==> e in pages[0].contents {}
    }
  }

  lemma OnFirstOrRest(pages: seq<Page>, e: Entry)
    requires pages != []
    ensures OnSomePage(pages, e) <==> e in pages[0].contents || OnSomePage(pages[1..], e)
  {
    if i :| 0 <= i < |pages[1..]| && e in pages[1..][i].contents {
      assert e in pages[i + 1].contents;
    }
    if i :| 0 < i < |pages| && e in pages[i].contents {
      assert pages[1..][i - 1] == pages[i];
    }
  }

  lemma ServesRest(s3: Listing, pages: seq<Page>, first: nat, token: Option<string>)
    requires ServesFrom(s3, pages, first, token) && |pages| > 1
    ensures ServesFrom(s3, pages[1..], first + 1, pages[0].nextToken)
  {
    var rest := pages[1..];
    assert s3(first + 0 + 1, pages[0].nextToken) == Some(pages[0 + 1]);
    forall i | 0 <= i < |rest| - 1
      ensures rest[i].truncated == Some(true) && rest[i].nextToken.Some?
      ensures s3(first + 1 + i + 1, rest[i].nextToken) == Some(rest[i + 1])
    {
      assert s3(first + (i + 1) + 1, pages[i + 1].nextToken) == Some(pages[i + 1 + 1]);
    }
  }

  lemma {:induction false} BrokenListingFails(s3: Listing, pages: seq<Page>, first: nat, token: Option<string>,
                                              limit: nat)
    requires ServesFrom(s3, pages, first, token) && EndsWithin(s3, first, token, limit)
    requires
      var last := pages[|pages| - 1];
      last.truncated == Some(true) && last.nextToken.Some? && s3(first + |pages|, last.nextToken).None?
    ensures Walk(s3, first, token, limit).None?
    decreases |pages|
  {
    if |pages| > 1 {
      ServesRest(s3, pages, first, token);
      BrokenListingFails(s3, pages[1..], first + 1, pages[0].nextToken, limit - 1);
    }
  }

  // What a listing of these pages gives: the named entries that are old enough, in whole seconds.
  ghost predicate OldKeysOfPages(keys: seq<string>, pages: seq<Page>, nowSeconds: int, minAge: nat) {
    forall k :: k in keys <==>
      exists e :: OnSomePage(pages, e) && e.key == Some(k)
        && (minAge == 0 || (e.lastModified.Some? && nowSeconds - e.lastModified.value >= minAge))
  }

  /** Every page counts, and a request that fails anywhere fails the listing. */
  lemma WalkIsAllPages(s3: Listing, pages: seq<Page>, limit: nat, nowSeconds: int, minAge: nat)
    requires EndsWithin(s3, 0, None, limit)
    ensures Serves(s3, pages) ==>
      && Walk(s3, 0, None, limit).Some?
      && OldKeysOfPages(OldKeys(Walk(s3, 0, None, limit).value, nowSeconds, minAge), pages, nowSeconds, minAge)
    ensures BreaksOff(s3, pages) ==> Walk(s3, 0, None, limit).None?
  {
    if Serves(s3, pages) {
      ServedPagesEnd(s3, pages, 0, None, limit);
      var entries := Walk(s3, 0, None, limit).value;
      forall k
        ensures k in OldKeys(entries, nowSeconds, minAge) <==>
          exists e :: OnSomePage(pages, e) && e.key == Some(k)
            && (minAge == 0 || (e.lastModified.Some? && nowSeconds - e.lastModified.value >= minAge))
      {
        OldKeysAre(entries, nowSeconds, minAge, k);
      }
    }
    if BreaksOff(s3, pages) && pages != [] {
      BrokenListingFails(s3, pages, 0, None, limit);
    }
  }

  /**
   * The paged loop is one filter over the whole listing: the old keys of all pages, and
   * nothing if some request fails.
   */
  method ListObjectKeysOlderThan(s3: Listing, nowSeconds: int, minAge: nat, ghost limit: nat)
    returns (result: Option<seq<string>>)
    requires EndsWithin(s3, 0, None, limit)
    ensures result.None? <==> Walk(s3, 0, None, limit).None?
    ensures result.Some? ==> result.value == OldKeys(Walk(s3, 0, None, limit).value, nowSeconds, minAge)
    ensures forall pages :: Serves(s3, pages) ==>
      result.Some? && OldKeysOfPages(result.value, pages, nowSeconds, minAge)
    ensures forall pages :: BreaksOff(s3, pages) ==> result.None?
  {
    result := ListAllPages(s3, nowSeconds, minAge, limit);
    forall pages
      ensures Serves(s3, pages) ==> result.Some? && OldKeysOfPages(result.value, pages, nowSeconds, minAge)
      ensures BreaksOff(s3, pages) ==> result.None?
    {
      WalkIsAllPages(s3, pages, limit, nowSeconds, minAge);
    }
  }

  // The loop.
  method ListAllPages(s3: Listing, nowSeconds: int, minAge: nat, ghost limit: nat)
    returns (result: Option<seq<string>>)
    requires EndsWithin(s3, 0, None, limit)
    ensures result.None? <==> Walk(s3, 0, None, limit).None?
    ensures result.Some? ==> result.value == OldKeys(Walk(s3, 0, None, limit).value, nowSeconds, minAge)
  {
    var keys: seq<string> := [];
    var token := None;
    var i := 0;
    ghost var left := limit;
    ghost var seen: seq<Entry> := [];
    ghost var whole := Walk(s3, 0, None, limit);
    assert whole.Some? ==> [] + whole.value == whole.value;
    while true
      invariant Walking(s3, i, token, left, seen, whole)
      invariant keys == OldKeys(seen, nowSeconds, minAge)
      decreases left
    {
      WalkOn(s3, i, token, left, seen);
      var answer := s3(i, token);
      if answer.None? {
        return None;
      }
      var page := answer.value;
      OldKeysConcat(seen, page.contents, nowSeconds, minAge);
      keys := keys + OldKeys(page.contents, nowSeconds, minAge);
      seen := seen + page.contents;
      if page.truncated == Some(true) {
        token := page.nextToken;
        if token.None? {
          break;
        }
      } else {
        break;
      }
      i, left := i + 1, left - 1;
    }
    result := Some(keys);
  }

  // ---------------------------------------------------------------- the database's keys

  // SELECT object_key FROM sys_file WHERE object_key LIKE 'archive/%'.
  function ArchiveKeysInDb(fileKeys: set<string>): set<string> {
    set k | k in fileKeys && StartsWith(k, ARCHIVE_PREFIX)
  }

  // The avatar query, over sys_user's avatar_key column, without empty results.
  function AvatarKeysInDb(users: map<Uuid, Option<string>>): set<string> {
    set u | u in users && users[u].Some? && StartsWith(users[u].value, AVATAR_PREFIX)
            && SweepExpression(users[u].value) != "" :: SweepExpression(users[u].value)
  }

  function Unreferenced(keys: seq<string>, db: set<string>): (rest: seq<string>)
    ensures forall k :: k in rest <==> k in keys && k !in db
  {
    if keys == [] then [] else (if keys[0] in db then [] else [keys[0]]) + Unreferenced(keys[1..], db)
  }

  class AdvisoryLock {
    var held: bool
  }

  // What the two queries return, or nothing when the database fails.
  datatype DbRead = DbRead(fileKeys: Option<set<string>>, users: Option<map<Uuid, Option<string>>>)

  function OrphanKeys(archive: seq<string>, avatar: seq<string>, fileKeys: set<string>,
                      users: map<Uuid, Option<string>>): (orphans: seq<string>)
    ensures forall k :: k in orphans <==>
      (k in archive && k !in ArchiveKeysInDb(fileKeys)) || (k in avatar && k !in AvatarKeysInDb(users))
  {
    Unreferenced(archive, ArchiveKeysInDb(fileKeys)) + Unreferenced(avatar, AvatarKeysInDb(users))
  }

  /**
   * One pass. While another instance holds the lock nothing happens; otherwise the keys
   * deleted are orphans of this pass, all of them when it succeeds, in requests of at
   * most 1000 that cut the orphan list exactly. The lock is free again afterwards.
   */
  method CleanupOrphanPersistentObjects(
      lock: AdvisoryLock, bucket: Bucket, archive: Listing, avatar: Listing, db: DbRead,
      nowSeconds: int, minAge: nat, ghost limit: nat)
    returns (ok: bool, ghost gone: set<string>)
    requires EndsWithin(archive, 0, None, limit) && EndsWithin(avatar, 0, None, limit)
    modifies lock, bucket`objects, bucket`requests, bucket`deleted, bucket`log
    ensures lock.held == old(lock.held)
    ensures bucket.objects == old(bucket.objects) - gone && bucket.deleted == old(bucket.deleted) + gone
    ensures old(lock.held) ==> ok && gone == {} && bucket.log == old(bucket.log)
    ensures !old(lock.held) && !Complete(archive, avatar, db, limit) ==>
      !ok && gone == {} && bucket.log == old(bucket.log)
    ensures !old(lock.held) && Complete(archive, avatar, db, limit) ==>
      && gone <= ToSet(PassOrphans(archive, avatar, db, nowSeconds, minAge, limit))
      && (ok <==> DeletesAll(bucket.outage, bucket.verdict, old(bucket.requests),
                             PassOrphans(archive, avatar, db, nowSeconds, minAge, limit)))
      && (ok ==> gone == ToSet(PassOrphans(archive, avatar, db, nowSeconds, minAge, limit)))
      && (ok ==>
            bucket.log
            == old(bucket.log)
               + Chunks(PassOrphans(archive, avatar, db, nowSeconds, minAge, limit), MAX_DELETE_PER_REQUEST))
    ensures forall ps, qs :: CompletePages(archive, ps, avatar, qs, old(bucket.objects)) ==>
      DeletesOrphans(db, old(bucket.objects), nowSeconds, minAge, gone, !old(lock.held) && ok)
  {
    if lock.held {
      return true, {};
    }
    lock.held := true;
    ok, gone := CleanUnderLock(bucket, archive, avatar, db, nowSeconds, minAge, limit);
    lock.held := false;
    forall ps, qs | CompletePages(archive, ps, avatar, qs, old(bucket.objects))
      ensures DeletesOrphans(db, old(bucket.objects), nowSeconds, minAge, gone, ok)
    {
      PassIsExact(archive, ps, avatar, qs, db, old(bucket.objects), nowSeconds, minAge, limit);
    }
  }

  method CleanUnderLock(bucket: Bucket, archive: Listing, avatar: Listing, db: DbRead, nowSeconds: int, minAge: nat,
                        ghost limit: nat)
    returns (ok: bool, ghost gone: set<string>)
    requires EndsWithin(archive, 0, None, limit) && EndsWithin(avatar, 0, None, limit)
    modifies bucket`objects, bucket`requests, bucket`deleted, bucket`log
    ensures bucket.objects == old(bucket.objects) - gone && bucket.deleted == old(bucket.deleted) + gone
    ensures !Complete(archive, avatar, db, limit) ==> !ok && gone == {} && bucket.log == old(bucket.log)
    ensures Complete(archive, avatar, db, limit) ==>
      && gone <= ToSet(PassOrphans(archive, avatar, db, nowSeconds, minAge, limit))
      && (ok <==> DeletesAll(bucket.outage, bucket.verdict, old(bucket.requests),
                             PassOrphans(archive, avatar, db, nowSeconds, minAge, limit)))
      && (ok ==> gone == ToSet(PassOrphans(archive, avatar, db, nowSeconds, minAge, limit)))
      && (ok ==>
            bucket.log
            == old(bucket.log)
               + Chunks(PassOrphans(archive, avatar, db, nowSeconds, minAge, limit), MAX_DELETE_PER_REQUEST))
  {
    var archiveKeys := ListObjectKeysOlderThan(archive, nowSeconds, minAge, limit);
    if archiveKeys.None? {
      return false, {};
    }
    var avatarKeys := ListObjectKeysOlderThan(avatar, nowSeconds, minAge, limit);
    if avatarKeys.None? || db.fileKeys.None? || db.users.None? {
      return false, {};
    }
    var orphans := OrphanKeys(archiveKeys.value, avatarKeys.value, db.fileKeys.value, db.users.value);
    if orphans == [] {
      return true, {};
    }
    ok, gone := bucket.DeleteObjects(orphans);
  }

  predicate Complete(archive: Listing, avatar: Listing, db: DbRead, limit: nat)
    requires EndsWithin(archive, 0, None, limit) && EndsWithin(avatar, 0, None, limit)
  {
    && Walk(archive, 0, None, limit).Some? && Walk(avatar, 0, None, limit).Some?
    && db.fileKeys.Some? && db.users.Some?
  }

  function PassOrphans(archive: Listing, avatar: Listing, db: DbRead, nowSeconds: int, minAge: nat,
                       limit: nat): seq<string>
    requires EndsWithin(archive, 0, None, limit) && EndsWithin(avatar, 0, None, limit)
    requires Complete(archive, avatar, db, limit)
  {
    OrphanKeys(
      OldKeys(Walk(archive, 0, None, limit).value, nowSeconds, minAge),
      OldKeys(Walk(avatar, 0, None, limit).value, nowSeconds, minAge),
      db.fileKeys.value, db.users.value)
  }

  // ---------------------------------------------------------------- what a pass means

  // A complete listing: an entry for each object under the prefix, and no other.
  ghost predicate Lists(entries: seq<Entry>, objects: map<string, int>, prefix: string) {
    && (forall e :: e in entries ==>
          && e.key.Some? && e.key.value in objects && StartsWith(e.key.value, prefix)
          && e.lastModified == Some(Seconds(objects[e.key.value])))
    && (forall k :: k in objects && StartsWith(k, prefix) ==> Entry(Some(k), Some(Seconds(objects[k]))) in entries)
  }

  ghost predicate IsOrphan(k: string, objects: map<string, int>, fileKeys: set<string>,
                           users: map<Uuid, Option<string>>, nowSeconds: int, minAge: nat) {
    && k in objects && OldEnough(nowSeconds, Seconds(objects[k]), minAge)
    && ((StartsWith(k, ARCHIVE_PREFIX) && k !in fileKeys)
        || (StartsWith(k, AVATAR_PREFIX) && k !in AvatarKeysInDb(users)))
  }

  lemma OldKeysOfListing(entries: seq<Entry>, objects: map<string, int>, prefix: string, nowSeconds: int, minAge: nat,
                         k: string)
    requires Lists(entries, objects, prefix)
    ensures k in OldKeys(entries, nowSeconds, minAge) <==>
      k in objects && StartsWith(k, prefix) && OldEnough(nowSeconds, Seconds(objects[k]), minAge)
  {
    OldKeysAre(entries, nowSeconds, minAge, k);
    if k in objects && StartsWith(k, prefix) {
      assert Entry(Some(k), Some(Seconds(objects[k]))) in entries;
    }
  }

  /**
   * Sweep exactness: with complete listings, the keys of a pass are exactly the archive
   * and avatar keys that are old enough and that the database does not mention.
   */
  lemma SweepIsExact(archive: seq<Entry>, avatar: seq<Entry>, objects: map<string, int>, fileKeys: set<string>,
      users: map<Uuid, Option<string>>, nowSeconds: int, minAge: nat, k: string)
    requires Lists(archive, objects, ARCHIVE_PREFIX) && Lists(avatar, objects, AVATAR_PREFIX)
    ensures k in OrphanKeys(OldKeys(archive, nowSeconds, minAge), OldKeys(avatar, nowSeconds, minAge), fileKeys, users)
      <==> IsOrphan(k, objects, fileKeys, users, nowSeconds, minAge)
    ensures IsOrphan(k, objects, fileKeys, users, nowSeconds, minAge) ==> !StartsWith(k, TEMP_PREFIX)
  {
    OldKeysOfListing(archive, objects, ARCHIVE_PREFIX, nowSeconds, minAge, k);
    OldKeysOfListing(avatar, objects, AVATAR_PREFIX, nowSeconds, minAge, k);
    PrefixesAreDisjoint(k);
  }

  // The same of the pages of a listing.
  ghost predicate PagesList(pages: seq<Page>, objects: map<string, int>, prefix: string) {
    && (forall e :: OnSomePage(pages, e) ==>
          && e.key.Some? && e.key.value in objects && StartsWith(e.key.value, prefix)
          && e.lastModified == Some(Seconds(objects[e.key.value])))
    && (forall k :: k in objects && StartsWith(k, prefix) ==>
          OnSomePage(pages, Entry(Some(k), Some(Seconds(objects[k])))))
  }

  // Both listings serve all of their pages, and these show all objects.
  ghost predicate CompletePages(archive: Listing, ps: seq<Page>, avatar: Listing, qs: seq<Page>,
                                objects: map<string, int>) {
    && Serves(archive, ps) && PagesList(ps, objects, ARCHIVE_PREFIX)
    && Serves(avatar, qs) && PagesList(qs, objects, AVATAR_PREFIX)
  }

  // Only orphans are gone, and all of them after a pass that succeeded.
  ghost predicate DeletesOrphans(db: DbRead, objects: map<string, int>, nowSeconds: int, minAge: nat,
                                 gone: set<string>, succeeded: bool) {
    && (gone != {} || succeeded ==> db.fileKeys.Some? && db.users.Some?)
    && (forall k :: k in gone ==> IsOrphan(k, objects, db.fileKeys.value, db.users.value, nowSeconds, minAge))
    && (succeeded ==>
          forall k :: IsOrphan(k, objects, db.fileKeys.value, db.users.value, nowSeconds, minAge) ==> k in gone)
  }

  /** With all pages served, a pass is about exactly the orphans of the bucket. */
  lemma PassIsExact(archive: Listing, ps: seq<Page>, avatar: Listing, qs: seq<Page>, db: DbRead,
                    objects: map<string, int>, nowSeconds: int, minAge: nat, limit: nat)
    requires EndsWithin(archive, 0, None, limit) && EndsWithin(avatar, 0, None, limit)
    requires CompletePages(archive, ps, avatar, qs, objects)
    ensures Complete(archive, avatar, db, limit) <==> db.fileKeys.Some? && db.users.Some?
    ensures Complete(archive, avatar, db, limit) ==>
      forall k :: k in PassOrphans(archive, avatar, db, nowSeconds, minAge, limit) <==>
        IsOrphan(k, objects, db.fileKeys.value, db.users.value, nowSeconds, minAge)
  {
    ServedPagesEnd(archive, ps, 0, None, limit);
    ServedPagesEnd(avatar, qs, 0, None, limit);
    if Complete(archive, avatar, db, limit) {
      forall k
        ensures k in PassOrphans(archive, avatar, db, nowSeconds, minAge, limit) <==>
          IsOrphan(k, objects, db.fileKeys.value, db.users.value, nowSeconds, minAge)
      {
        SweepIsExact(Walk(archive, 0, None, limit).value, Walk(avatar, 0, None, limit).value, objects,
                     db.fileKeys.value, db.users.value, nowSeconds, minAge, k);
      }
    }
  }

  // Every avatar_key in the table is one that the avatar upload wrote for that user, under
  // a file name it accepts.
  ghost predicate AvatarsAreBuilt(users: map<Uuid, Option<string>>) {
    forall u :: u in users && users[u].Some? ==> WrittenFor(u, users[u].value)
  }

  ghost predicate WrittenFor(user: Uuid, stored: string) {
    exists name :: IsPhotoName(name) && BuildAvatarKey(AvatarDestKey(user), name) == Some(stored)
  }

  lemma WrittenKeyDecodes(user: Uuid, stored: string)
    requires WrittenFor(user, stored)
    ensures StartsWith(stored, AVATAR_PREFIX) && SweepExpression(stored) == AvatarDestKey(user)
    ensures StartsWith(AvatarDestKey(user), AVATAR_PREFIX) && AvatarDestKey(user) != ""
  {
    var name :| IsPhotoName(name) && BuildAvatarKey(AvatarDestKey(user), name) == Some(stored);
    AcceptedAvatarKeyDecodes(user, name, stored);
    StoredIsPrefixed(user, "");
  }

  /** The query gives back exactly the object keys of the users that have an avatar. */
  lemma AvatarQueryIsExact(users: map<Uuid, Option<string>>, user: Uuid)
    requires AvatarsAreBuilt(users)
    ensures AvatarDestKey(user) in AvatarKeysInDb(users) <==> user in users && users[user].Some?
  {
    forall u | u in users && users[u].Some?
      ensures SweepExpression(users[u].value) == AvatarDestKey(u) && StartsWith(users[u].value, AVATAR_PREFIX)
    {
      WrittenKeyDecodes(u, users[u].value);
    }
    if user in users && users[user].Some? {
      WrittenKeyDecodes(user, users[user].value);
    }
    if AvatarDestKey(user) in AvatarKeysInDb(users) {
      var u :| u in users && users[u].Some? && SweepExpression(users[u].value) == AvatarDestKey(user);
      AvatarKeyNamesUser(u, user);
    }
  }

  lemma AvatarKeyNamesUser(a: Uuid, b: Uuid)
    ensures AvatarDestKey(a) == AvatarDestKey(b) <==> a == b
  {
    assert AvatarDestKey(a)[7..] == a && AvatarDestKey(b)[7..] == b;
  }

  /**
   * A referenced avatar is never an orphan, and an old avatar object is one exactly when
   * its user has no avatar in the table.
   */
  lemma AvatarIsOrphanIffUnreferenced(user: Uuid, objects: map<string, int>, fileKeys: set<string>,
      users: map<Uuid, Option<string>>, nowSeconds: int, minAge: nat)
    requires AvatarsAreBuilt(users)
    ensures IsOrphan(AvatarDestKey(user), objects, fileKeys, users, nowSeconds, minAge) <==>
      && AvatarDestKey(user) in objects
      && OldEnough(nowSeconds, Seconds(objects[AvatarDestKey(user)]), minAge)
      && !(user in users && users[user].Some?)
  {
    AvatarQueryIsExact(users, user);
    PrefixesAreDisjoint(AvatarDestKey(user));
    assert AVATAR_PREFIX <= AvatarDestKey(user);
  }
}
