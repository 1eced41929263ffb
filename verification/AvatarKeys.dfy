/**
 * Avatar keys: the database stores the object key with the file's extension appended,
 * and two places take the extension off again, each in its own way.
 */
module AvatarKeys {
  import opened Wrappers
  import opened ObjectKeys

  // The index of the last occurrence of c among the first n characters, or -1.
  function LastIndexBefore(s: string, c: char, n: nat): (i: int)
    requires n <= |s|
    ensures -1 <= i < n
    ensures i >= 0 ==> s[i] == c
    ensures forall j :: i < j < n ==> s[j] != c
  {
    if n == 0 then -1 else if s[n - 1] == c then n - 1 else LastIndexBefore(s, c, n - 1)
  }

  function LastIndex(s: string, c: char): (i: int)
    ensures -1 <= i < |s|
    ensures i >= 0 ==> s[i] == c
    ensures forall j :: i < j < |s| ==> s[j] != c
  {
    LastIndexBefore(s, c, |s|)
  }

  // "", "." and ".." are no file names.
  predicate IsName(component: string) {
    component != "" && (component[0] == '.' ==> |component| > 2 || (|component| == 2 && component[1] != '.'))
  }

  // How much is left of the first n characters without trailing slashes and "." components.
  function TrimmedLength(path: string, n: nat): (m: nat)
    requires n <= |path|
    ensures m <= n
  {
    if n == 0 then 0
    else if path[n - 1] == '/' || (n > 1 && path[n - 1] == '.' && path[n - 2] == '/') then TrimmedLength(path, n - 1)
    else n
  }

  function LastComponent(path: string): (last: string)
    ensures '/' !in last
  {
    path[LastIndex(path, '/') + 1..]
  }

  // Path::file_name on Unix: the last component; ".." and paths without a component have none.
  function FileName(path: string): (name: Option<string>)
    ensures name.Some? ==> '/' !in name.value
  {
    var last := LastComponent(path[..TrimmedLength(path, |path|)]);
    if IsName(last) then Some(last) else None
  }

  lemma LastIndexIs(s: string, c: char, i: nat)
    requires i < |s| && s[i] == c && forall j :: i < j < |s| ==> s[j] != c
    ensures LastIndex(s, c) == i
  {
  }

  // What follows the last dot of a name, unless that dot starts the name.
  function AfterLastDot(name: string): Option<string> {
    var dot := LastIndex(name, '.');
    if dot <= 0 then None else Some(name[dot + 1..])
  }

  // Path::extension.
  function Extension(path: string): Option<string> {
    if FileName(path).Some? then AfterLastDot(FileName(path).value) else None
  }

  lemma ExtensionIsPlain(path: string)
    requires Extension(path).Some?
    ensures '.' !in Extension(path).value && '/' !in Extension(path).value
  {
  }

  function BuildAvatarKey(objectKey: string, fileName: string): Option<string> {
    match Extension(fileName)
    case None => None
    case Some(ext) => Some(objectKey + "." + ext)
  }

  // ---------------------------------------------------------------- the names the upload accepts

  const PHOTO_TYPES := ["jpg", "png", "jpeg"]

  predicate EndsInType(name: string, ext: string) {
    // '.' in the pattern is any character but a line feed, and at least one comes first.
    && |name| > |ext| + 1 && name[|name| - |ext|..] == ext && name[|name| - |ext| - 1] == '.'
    && forall i :: 0 <= i < |name| - |ext| - 1 ==> name[i] != '\n'
  }

  // ^.+\.(jpg|png|jpeg)$
  predicate IsPhotoName(name: string) {
    exists i :: 0 <= i < |PHOTO_TYPES| && EndsInType(name, PHOTO_TYPES[i])
  }

  lemma FileNameOf(path: string)
    requires path != "" && path[|path| - 1] != '.' && path[|path| - 1] != '/'
    ensures FileName(path) == Some(LastComponent(path))
  {
    assert path[..|path|] == path;
    var last := LastComponent(path);
    assert last != "" && last[|last| - 1] == path[|path| - 1];
  }

  lemma AfterThisDot(name: string, dot: nat)
    requires dot < |name| && name[dot] == '.' && forall j :: dot < j < |name| ==> name[j] != '.'
    ensures AfterLastDot(name) == if dot == 0 then None else Some(name[dot + 1..])
  {
    LastIndexIs(name, '.', dot);
  }

  lemma SameDot(path: string, last: string, slash: nat, dot: nat)
    requires slash <= dot < |path| && path[dot] == '.' && forall j :: dot < j < |path| ==> path[j] != '.'
    requires last == path[slash..]
    ensures dot - slash < |last| && last[dot - slash] == '.'
    ensures forall j :: dot - slash < j < |last| ==> last[j] != '.'
    ensures last[dot - slash + 1..] == path[dot + 1..]
  {
    assert forall j :: 0 <= j < |last| ==> last[j] == path[j + slash];
  }

  lemma ExtensionOf(path: string, slash: nat, dot: nat)
    requires slash <= dot < |path| - 1 && path[dot] == '.' && path[|path| - 1] != '/'
    requires forall j :: dot < j < |path| ==> path[j] != '.'
    requires LastIndex(path, '/') == slash - 1
    ensures Extension(path) == if dot == slash then None else Some(path[dot + 1..])
  {
    FileNameOf(path);
    SameDot(path, LastComponent(path), slash, dot);
    AfterThisDot(LastComponent(path), dot - slash);
  }

  // A name that ends in a dot and a plain word: that word is its extension, if it has one.
  lemma ExtensionIsLastWord(name: string, ext: string)
    requires ext != "" && '.' !in ext && '/' !in ext
    requires |name| > |ext| + 1 && name[|name| - |ext|..] == ext && name[|name| - |ext| - 1] == '.'
    ensures Extension(name).Some? ==> Extension(name).value == ext
  {
    WordAtEnd(name, ext);
    ExtensionOf(name, LastIndex(name, '/') + 1, |name| - |ext| - 1);
  }

  lemma WordAtEnd(name: string, ext: string)
    requires ext != "" && '.' !in ext && '/' !in ext && |name| > |ext| + 1 && name[|name| - |ext|..] == ext
    ensures forall j :: |name| - |ext| <= j < |name| ==> name[j] != '.' && name[j] != '/'
  {
    forall j | |name| - |ext| <= j < |name| ensures name[j] != '.' && name[j] != '/' {
      assert name[|name| - |ext|..][j - (|name| - |ext|)] == name[j];
    }
  }

  lemma PhotoTypesArePlain()
    ensures forall i :: 0 <= i < |PHOTO_TYPES| ==>
      PHOTO_TYPES[i] != "" && '.' !in PHOTO_TYPES[i] && '/' !in PHOTO_TYPES[i]
  {
  }

  /** An accepted name has one of the accepted types as its extension, or none at all. */
  lemma PhotoExtension(name: string)
    requires IsPhotoName(name) && Extension(name).Some?
    ensures Extension(name).value in PHOTO_TYPES && Extension(name).value != ""
  {
    PhotoTypesArePlain();
    var i :| 0 <= i < |PHOTO_TYPES| && EndsInType(name, PHOTO_TYPES[i]);
    ExtensionIsLastWord(name, PHOTO_TYPES[i]);
  }

  /** Which it is: the type the name ends in, unless nothing but a slash comes before its dot. */
  lemma PhotoExtensionIs(name: string, ext: string)
    requires ext in {"jpg", "png", "jpeg"} && |name| > |ext| + 1
    requires name[|name| - |ext|..] == ext && name[|name| - |ext| - 1] == '.'
    ensures Extension(name) == if name[|name| - |ext| - 2] == '/' then None else Some(ext)
  {
    PhotoTypesArePlain();
    assert ext in PHOTO_TYPES;
    WordAtEnd(name, ext);
    var dot := |name| - |ext| - 1;
    ExtensionOf(name, LastIndex(name, '/') + 1, dot);
    assert name[dot + 1..] == ext;
  }

  // The name is something without a line feed, a dot, and this type.
  ghost predicate EndsIn(name: string, ext: string) {
    exists stem :: name == stem + "." + ext && stem != "" && '\n' !in stem
  }

  lemma EndsInTypeIff(name: string, ext: string)
    ensures EndsInType(name, ext) <==> EndsIn(name, ext)
  {
    if EndsInType(name, ext) {
      var stem := name[..|name| - |ext| - 1];
      assert name == stem + "." + ext && stem != "" && '\n' !in stem;
    }
    if stem :| name == stem + "." + ext && stem != "" && '\n' !in stem {
      assert |name| == |stem| + 1 + |ext| && name[|stem|] == '.' && name[|stem| + 1..] == ext;
      assert forall i :: 0 <= i < |stem| ==> name[i] == stem[i];
    }
  }

  /** The upload accepts exactly the names that end in one of these types. */
  lemma AcceptedIff(name: string)
    ensures IsPhotoName(name) <==> EndsIn(name, "jpg") || EndsIn(name, "png") || EndsIn(name, "jpeg")
  {
    assert PHOTO_TYPES[0] == "jpg" && PHOTO_TYPES[1] == "png" && PHOTO_TYPES[2] == "jpeg";
    forall i | 0 <= i < |PHOTO_TYPES| ensures EndsInType(name, PHOTO_TYPES[i]) <==> EndsIn(name, PHOTO_TYPES[i]) {
      EndsInTypeIff(name, PHOTO_TYPES[i]);
    }
  }

  // avatar_key.split('.').next()
  function FirstDotSplit(s: string): string {
    if s == "" || s[0] == '.' then "" else [s[0]] + FirstDotSplit(s[1..])
  }

  // Where the pattern \\.[^./]+$ matches.
  predicate ExtensionAt(s: string, i: nat) {
    && i + 1 < |s| && s[i] == '.'
    && forall j :: i < j < |s| ==> s[j] != '.' && s[j] != '/'
  }

  // avatar_key ~ '^avatar/.+\\.[^./]+$'
  predicate MatchesAvatarPattern(s: string) {
    && StartsWith(s, AVATAR_PREFIX)
    && exists i :: |AVATAR_PREFIX| < i < |s| && ExtensionAt(s, i)
  }

  // The sweep's CASE expression: the key with its extension taken off, where it has one.
  function SweepExpression(s: string): string {
    if MatchesAvatarPattern(s) then
      (var dot := LastIndex(s, '.'); if dot >= 0 then s[..dot] else s)
    else s
  }

  /** The last dot is the only place the replacement can match. */
  lemma ReplacementIsAtLastDot(s: string)
    requires MatchesAvatarPattern(s)
    ensures ExtensionAt(s, LastIndex(s, '.'))
  {
    var i :| |AVATAR_PREFIX| < i < |s| && ExtensionAt(s, i);
  }

  lemma {:induction false} SplitStopsAtFirstDot(head: string, tail: string)
    requires '.' !in head && tail != "" && tail[0] == '.'
    ensures FirstDotSplit(head + tail) == head
  {
    if head == "" {
      assert head + tail == tail;
    } else {
      assert (head + tail)[1..] == head[1..] + tail;
      SplitStopsAtFirstDot(head[1..], tail);
    }
  }

  lemma ObjectKeyHasNoDot(user: Uuid)
    ensures |AvatarDestKey(user)| == 43 && '.' !in AvatarDestKey(user)
  {
    var base := AvatarDestKey(user);
    assert forall i :: 7 <= i < |base| ==> base[i] == user[i - 7];
  }

  lemma SweepExpressionOf(user: Uuid, ext: string)
    requires '.' !in ext && '/' !in ext
    ensures SweepExpression(AvatarDestKey(user) + "." + ext) == AvatarDestKey(user) <==> ext != ""
  {
    var base := AvatarDestKey(user);
    var stored := base + "." + ext;
    ObjectKeyHasNoDot(user);
    assert |stored| == 44 + |ext| && stored[..43] == base && stored[43] == '.';
    assert forall j :: 43 < j < |stored| ==> stored[j] == ext[j - 44];
    if ext == "" {
      NothingAfterLastDot(stored);
    } else {
      assert ExtensionAt(stored, 43);
      assert AVATAR_PREFIX <= stored;
      LastIndexIs(stored, '.', 43);
    }
  }

  lemma NothingAfterLastDot(stored: string)
    requires |stored| == 44 && stored[43] == '.'
    ensures SweepExpression(stored) == stored
  {
    assert forall i :: 8 <= i < 43 ==> !ExtensionAt(stored, i);
  }

  /**
   * The stored key decodes to the object key: by the first-dot split always, and by the
   * sweep's expression if and only if the extension is not empty.
   */
  lemma AvatarKeyDecodes(user: Uuid, fileName: string, stored: string)
    requires BuildAvatarKey(AvatarDestKey(user), fileName) == Some(stored)
    ensures FirstDotSplit(stored) == AvatarDestKey(user)
    ensures SweepExpression(stored) == AvatarDestKey(user) <==> Extension(fileName) != Some("")
  {
    var base, ext := AvatarDestKey(user), Extension(fileName).value;
    ObjectKeyHasNoDot(user);
    ExtensionIsPlain(fileName);
    assert stored == base + ("." + ext);
    SplitStopsAtFirstDot(base, "." + ext);
    SweepExpressionOf(user, ext);
  }

  lemma StoredIsPrefixed(user: Uuid, ext: string)
    ensures StartsWith(AvatarDestKey(user), AVATAR_PREFIX) && AvatarDestKey(user) != ""
    ensures StartsWith(AvatarDestKey(user) + "." + ext, AVATAR_PREFIX)
  {
    assert AvatarDestKey(user) + "." + ext == AVATAR_PREFIX + (user + "." + ext);
  }

  /** For every name the upload accepts, both decoders give the object key back. */
  lemma AcceptedAvatarKeyDecodes(user: Uuid, fileName: string, stored: string)
    requires IsPhotoName(fileName) && BuildAvatarKey(AvatarDestKey(user), fileName) == Some(stored)
    ensures FirstDotSplit(stored) == AvatarDestKey(user) && SweepExpression(stored) == AvatarDestKey(user)
    ensures StartsWith(stored, AVATAR_PREFIX)
  {
    PhotoExtension(fileName);
    StoredIsPrefixed(user, Extension(fileName).value);
    AvatarKeyDecodes(user, fileName, stored);
  }

  lemma DotEndsNoPhotoName(name: string)
    requires name != "" && name[|name| - 1] == '.'
    ensures !IsPhotoName(name)
  {
    PhotoTypesArePlain();
    forall i | 0 <= i < |PHOTO_TYPES| ensures !EndsInType(name, PHOTO_TYPES[i]) {
      LastCharacterDecides(name, PHOTO_TYPES[i]);
    }
  }

  lemma LastCharacterDecides(name: string, ext: string)
    requires name != "" && ext != "" && name[|name| - 1] != ext[|ext| - 1]
    ensures !EndsInType(name, ext)
  {
    if |name| > |ext| {
      assert name[|name| - |ext|..][|ext| - 1] == name[|name| - 1];
    }
  }

  lemma DotEndedExtension(name: string)
    requires |name| > 1 && name != ".." && '/' !in name && name[|name| - 1] == '.'
    ensures Extension(name) == Some("")
  {
    assert LastIndex(name, '/') == -1 && name[0..] == name;
    assert |name| == 2 && name[0] == '.' ==> name == "..";
    assert name[|name| - 2] in name && name[..|name|] == name;
    assert TrimmedLength(name, |name|) == |name| && LastComponent(name) == name;
    assert FileName(name) == Some(name);
    LastIndexIs(name, '.', |name| - 1);
    assert name[|name|..] == "";
  }

  /** The name check is needed: names that end in a dot, which it rejects, would not be decoded by the sweep. */
  lemma TrailingDotIsRejected(user: Uuid, name: string)
    requires |name| > 1 && name != ".." && '/' !in name && name[|name| - 1] == '.'
    ensures !IsPhotoName(name)
    ensures BuildAvatarKey(AvatarDestKey(user), name) == Some(AvatarDestKey(user) + ".")
    ensures SweepExpression(AvatarDestKey(user) + ".") != AvatarDestKey(user)
  {
    DotEndsNoPhotoName(name);
    DotEndedExtension(name);
    assert AvatarDestKey(user) + "." + "" == AvatarDestKey(user) + ".";
    AvatarKeyDecodes(user, name, AvatarDestKey(user) + ".");
  }
}
