/** Object keys: the storage service prints them, the gateway takes them apart again to see
    what they are for and whose they are. */
module Keys {
  import opened Text
  import opened Wrappers

  datatype Reason = NoUser | UnknownFolder | UnsupportedType

  // ---------- Splitting at slashes ----------

  predicate SlashFree(s: string) {
    '/' !in s
  }

  /** The pieces between the slashes of a string. */
  function Split(s: string): (parts: seq<string>)
    ensures parts != []
  {
    if s == [] then [[]]
    else
      var rest := Split(s[1..]);
      if s[0] == '/' then [[]] + rest else [[s[0]] + rest[0]] + rest[1..]
  }

  function Join(parts: seq<string>): string
    requires parts != []
  {
    if |parts| == 1 then parts[0] else parts[0] + "/" + Join(parts[1..])
  }

  lemma {:induction false} SplitThenJoin(s: string)
    ensures Join(Split(s)) == s
    ensures forall i | 0 <= i < |Split(s)| :: SlashFree(Split(s)[i])
  {
    if s != [] {
      var rest := Split(s[1..]);
      SplitThenJoin(s[1..]);
      if s[0] == '/' {
        assert Split(s)[1..] == rest;
      } else if |rest| > 1 {
        assert Split(s)[1..] == rest[1..];
        assert Join(Split(s)) == [s[0]] + Join(rest);
      }
    }
  }

  lemma {:induction false} JoinThenSplit(parts: seq<string>)
    requires parts != [] && forall i | 0 <= i < |parts| :: SlashFree(parts[i])
    ensures Split(Join(parts)) == parts
    decreases |parts|, |parts[0]|
  {
    var s := Join(parts);
    if parts[0] != [] {
      var shorter := [parts[0][1..]] + parts[1..];
      JoinThenSplit(shorter);
      assert shorter[1..] == parts[1..];
      assert s[1..] == Join(shorter);
      assert s[0] == parts[0][0] && s[0] in parts[0];
      assert [s[0]] + shorter[0] == parts[0];
    } else if |parts| > 1 {
      JoinThenSplit(parts[1..]);
      assert s[1..] == Join(parts[1..]);
    }
  }

  // ---------- Printing a key ----------

  const UPLOAD_FOLDERS: map<string, set<string>> := map[
    "images" := {"image/jpg", "image/jpeg", "image/png", "image/gif", "image/heic", "image/heif", "image/webp"},
    "videos" := {"video/mp4", "video/avi", "video/mov", "video/wmv", "video/quicktime", "video/webm",
                 "video/x-msvideo", "video/x-ms-wmv"},
    "voices" := {"audio/mp3", "audio/wav", "audio/ogg", "audio/mpeg", "audio/webm", "audio/mp4"},
    "files" := {},
    "avatars" := {"image/jpg", "image/jpeg", "image/png", "image/webp"}
  ]

  const ID_BYTES := 16
  const MAX_EXT := 10

  type byte = x: int | 0 <= x < 256

  /** The last element's suffix from its last dot, or nothing. */
  function Ext(path: string): string {
    if path == [] || path[|path| - 1] == '/' then []
    else if path[|path| - 1] == '.' then "."
    else
      var ext := Ext(path[..|path| - 1]);
      if ext == [] then [] else ext + [path[|path| - 1]]
  }

  /** It starts at the last dot of the last element; without a dot there it is empty. */
  lemma {:induction false} ExtIsLastSuffix(path: string)
    ensures var ext := Ext(path);
            && |ext| <= |path| && path[|path| - |ext|..] == ext
            && (ext != [] ==> ext[0] == '.' && '.' !in ext[1..] && '/' !in ext)
            && (ext == [] ==> forall i | 0 <= i < |path| && path[i] == '.' :: '/' in path[i..])
  {
    if path != [] && path[|path| - 1] == '/' {
      assert forall i | 0 <= i < |path| :: path[i..][|path| - 1 - i] == '/';
    } else if path != [] && path[|path| - 1] != '.' {
      var front, ext := path[..|path| - 1], Ext(path[..|path| - 1]);
      ExtIsLastSuffix(front);
      if ext == [] {
        forall i | 0 <= i < |path| && path[i] == '.'
          ensures '/' in path[i..]
        {
          assert path[i..] == front[i..] + [path[|path| - 1]];
        }
      } else {
        assert (ext + [path[|path| - 1]])[1..] == ext[1..] + [path[|path| - 1]];
        assert path == front + [path[|path| - 1]];
      }
    }
  }

  function HexDigit(d: int): char
    requires 0 <= d < 16
  {
    "0123456789abcdef"[d]
  }

  function Hex(id: seq<byte>): (s: string)
    ensures |s| == 2 * |id|
  {
    if id == [] then [] else [HexDigit(id[0] / 16), HexDigit(id[0] % 16)] + Hex(id[1..])
  }

  function ObjectName(id: seq<byte>, fileName: string): string {
    var ext := ToLower(Ext(fileName));
    Hex(id) + if |ext| > MAX_EXT then [] else ext
  }

  /** `mediaType` is what parsing the content type yields (nothing if it does not parse);
      `id` are the random bytes. */
  function GetUploadUrl(user: string, folder: string, mediaType: string, fileName: string, id: seq<byte>)
    : Result<string, Reason>
  {
    if user == [] then Err(NoUser)
    else if folder !in UPLOAD_FOLDERS then Err(UnknownFolder)
    else if UPLOAD_FOLDERS[folder] != {} && mediaType !in UPLOAD_FOLDERS[folder] then Err(UnsupportedType)
    else Ok(ToLower(folder) + "/" + user + "/" + ObjectName(id, fileName))
  }

  // ---------- The gateway's side ----------

  const FOLDER_BY_MSG_TYPE := map["image" := "images", "video" := "videos", "voice" := "voices", "file" := "files"]

  function UploadFolder(msgType: string, contentType: string): string {
    if msgType in FOLDER_BY_MSG_TYPE then FOLDER_BY_MSG_TYPE[msgType]
    else if "image/" <= contentType then "images"
    else if "video/" <= contentType then "videos"
    else if "audio/" <= contentType then "voices"
    else "files"
  }

  predicate MediaFolder(folder: string) {
    exists t | t in FOLDER_BY_MSG_TYPE :: FOLDER_BY_MSG_TYPE[t] == folder
  }

  predicate OwnFileKey(key: string, user: string) {
    var parts := Split(key);
    |parts| == 3 && parts[1] == user && parts[2] != [] && MediaFolder(parts[0])
  }

  predicate IsAvatarKey(key: string) {
    var parts := Split(key);
    |parts| == 3 && parts[0] == "avatars" && parts[1] != [] && parts[2] != []
  }

  predicate OwnAvatarKey(key: string, user: string) {
    IsAvatarKey(key) && Split(key)[1] == user
  }

  // ---------- What the parsers recognise ----------

  function Key(folder: string, user: string, name: string): string {
    folder + "/" + user + "/" + name
  }

  lemma JoinThree(a: string, b: string, c: string)
    ensures Join([a, b, c]) == Key(a, b, c)
  {
    assert [a, b, c][1..] == [b, c] && [b, c][1..] == [c];
    assert Join([b, c]) == b + "/" + c;
    assert Join([a, b, c]) == a + "/" + (b + "/" + c);
  }

  lemma KeySplits(folder: string, user: string, name: string)
    requires SlashFree(folder) && SlashFree(user) && SlashFree(name)
    ensures Split(Key(folder, user, name)) == [folder, user, name]
  {
    JoinThree(folder, user, name);
    JoinThenSplit([folder, user, name]);
  }

  lemma ThreeParts(key: string)
    requires |Split(key)| == 3
    ensures var p := Split(key); key == Key(p[0], p[1], p[2]) && SlashFree(p[0]) && SlashFree(p[1]) && SlashFree(p[2])
  {
    SplitThenJoin(key);
    var p := Split(key);
    JoinThree(p[0], p[1], p[2]);
    assert p == [p[0], p[1], p[2]];
  }

  lemma MediaFolders(folder: string)
    ensures MediaFolder(folder) <==> folder in {"images", "videos", "voices", "files"}
  {
    assert FOLDER_BY_MSG_TYPE["image"] == "images" && FOLDER_BY_MSG_TYPE["video"] == "videos";
    assert FOLDER_BY_MSG_TYPE["voice"] == "voices" && FOLDER_BY_MSG_TYPE["file"] == "files";
  }

  /** A key is a user's own file exactly when it prints a media folder, the user and a
      non-empty name, with no slash inside them. */
  lemma OwnFileKeyIff(key: string, user: string)
    ensures OwnFileKey(key, user)
       <==> SlashFree(user) && exists folder, name ::
              MediaFolder(folder) && name != [] && SlashFree(name) && key == Key(folder, user, name)
  {
    if OwnFileKey(key, user) {
      ThreeParts(key);
    }
    if SlashFree(user) {
      forall folder, name | MediaFolder(folder) && name != [] && SlashFree(name) && key == Key(folder, user, name)
        ensures OwnFileKey(key, user)
      {
        MediaFolders(folder);
        KeySplits(folder, user, name);
      }
    }
  }

  lemma OwnAvatarKeyIff(key: string, user: string)
    ensures OwnAvatarKey(key, user)
       <==> SlashFree(user) && user != [] && exists name ::
              name != [] && SlashFree(name) && key == Key("avatars", user, name)
  {
    if OwnAvatarKey(key, user) {
      ThreeParts(key);
    }
    if SlashFree(user) && user != [] {
      forall name | name != [] && SlashFree(name) && key == Key("avatars", user, name)
        ensures OwnAvatarKey(key, user)
      {
        KeySplits("avatars", user, name);
      }
    }
  }

  /** No key is both kinds, and no key is two users' own. */
  lemma KeyHasOneUse(key: string, u: string, v: string)
    ensures !(OwnFileKey(key, u) && IsAvatarKey(key))
    ensures OwnFileKey(key, u) && OwnFileKey(key, v) ==> u == v
    ensures OwnAvatarKey(key, u) && OwnAvatarKey(key, v) ==> u == v
  {
    MediaFolders(Split(key)[0]);
  }

  // ---------- Printing and parsing agree ----------

  lemma {:induction false} ExtSlashFree(path: string)
    ensures SlashFree(Ext(path))
  {
    if path != [] {
      ExtSlashFree(path[..|path| - 1]);
    }
  }

  lemma ToLowerSlashFree(s: string)
    requires SlashFree(s)
    ensures SlashFree(ToLower(s))
  {
    forall i | 0 <= i < |s|
      ensures ToLower(s)[i] != '/'
    {
      assert s[i] in s;
    }
  }

  lemma {:induction false} HexSlashFree(id: seq<byte>)
    ensures SlashFree(Hex(id))
  {
    if id != [] {
      HexSlashFree(id[1..]);
      assert forall d | 0 <= d < 16 :: HexDigit(d) != '/';
    }
  }

  lemma ObjectNameSlashFree(id: seq<byte>, fileName: string)
    ensures SlashFree(ObjectName(id, fileName))
    ensures 2 * |id| <= |ObjectName(id, fileName)| <= 2 * |id| + MAX_EXT
  {
    HexSlashFree(id);
    ExtSlashFree(fileName);
    ToLowerSlashFree(Ext(fileName));
  }

  /** The known folders are in lower case and have no slash. */
  lemma FolderPrintsItself(folder: string)
    requires folder in UPLOAD_FOLDERS
    ensures ToLower(folder) == folder && SlashFree(folder)
    ensures MediaFolder(folder) <==> folder != "avatars"
  {
    MediaFolders(folder);
    assert folder in {"images", "videos", "voices", "files", "avatars"};
    assert forall i | 0 <= i < |folder| :: 'a' <= folder[i] <= 'z';
  }

  /** A slash inside the user makes more than three parts. */
  lemma {:induction false} SlashesCount(s: string)
    ensures |Split(s)| == 1 + multiset(s)['/']
  {
    if s != [] {
      assert s == [s[0]] + s[1..];
      SlashesCount(s[1..]);
    }
  }

  /** Every key that is handed out is recognised as its user's, of the kind its folder says,
      for no one else and as nothing else; a user name with a slash is the only obstacle. */
  lemma PrintedKeyIsOwners(user: string, folder: string, mediaType: string, fileName: string, id: seq<byte>, v: string)
    requires |id| == ID_BYTES && GetUploadUrl(user, folder, mediaType, fileName, id).Ok?
    ensures var key := GetUploadUrl(user, folder, mediaType, fileName, id).value;
            && (OwnFileKey(key, v) <==> folder != "avatars" && v == user && SlashFree(user))
            && (OwnAvatarKey(key, v) <==> folder == "avatars" && v == user && SlashFree(user))
  {
    hide ObjectName, ToLower, Split, MediaFolder;
    var key := GetUploadUrl(user, folder, mediaType, fileName, id).value;
    var name := ObjectName(id, fileName);
    FolderPrintsItself(folder);
    ObjectNameSlashFree(id, fileName);
    assert key == Key(folder, user, name);
    if SlashFree(user) {
      KeySplits(folder, user, name);
    } else {
      SlashInUserMakesMoreParts(folder, user, name);
    }
  }

  lemma SlashInUserMakesMoreParts(folder: string, user: string, name: string)
    requires !SlashFree(user)
    ensures |Split(Key(folder, user, name))| > 3
  {
    var key := Key(folder, user, name);
    SlashesCount(key);
    assert multiset(key) == multiset(folder) + multiset{'/'} + multiset(user) + multiset{'/'} + multiset(name);
    assert multiset(user)['/'] > 0;
  }

  /** The gateway's choice of folder is always one the storage service knows and one for
      message files, so what it gets is the sender's own file key. */
  lemma UploadedFileIsSenders(user: string, msgType: string, contentType: string, mediaType: string,
                              fileName: string, id: seq<byte>, v: string)
    requires |id| == ID_BYTES && user != [] && SlashFree(user)
    ensures var folder := UploadFolder(msgType, contentType);
            match GetUploadUrl(user, folder, mediaType, fileName, id)
            case Ok(key) => (OwnFileKey(key, v) <==> v == user) && !IsAvatarKey(key)
            case Err(reason) => reason == UnsupportedType && folder != "files"
  {
    var folder := UploadFolder(msgType, contentType);
    assert folder in {"images", "videos", "voices", "files"};
    assert folder in UPLOAD_FOLDERS;
    var result := GetUploadUrl(user, folder, mediaType, fileName, id);
    if result.Ok? {
      PrintedKeyIsOwners(user, folder, mediaType, fileName, id, v);
      PrintedKeyIsOwners(user, folder, mediaType, fileName, id, user);
      KeyHasOneUse(result.value, user, user);
    }
  }

  // ---------- Keys do not collide ----------

  lemma HexDigitsDiffer(c: int, d: int)
    requires 0 <= c < 16 && 0 <= d < 16 && HexDigit(c) == HexDigit(d)
    ensures c == d
  {
  }

  lemma {:induction false} HexIsInjective(id1: seq<byte>, id2: seq<byte>)
    requires |id1| == |id2| && Hex(id1) == Hex(id2)
    ensures id1 == id2
  {
    if id1 != [] {
      var s := Hex(id1);
      assert s[0] == HexDigit(id1[0] / 16) && s[1] == HexDigit(id1[0] % 16) && s[2..] == Hex(id1[1..]);
      assert s[0] == HexDigit(id2[0] / 16) && s[1] == HexDigit(id2[0] % 16) && s[2..] == Hex(id2[1..]);
      HexDigitsDiffer(id1[0] / 16, id2[0] / 16);
      HexDigitsDiffer(id1[0] % 16, id2[0] % 16);
      HexIsInjective(id1[1..], id2[1..]);
      assert id1 == [id1[0]] + id1[1..] && id2 == [id2[0]] + id2[1..];
    }
  }

  /** Two uploads get the same key only with the same folder, the same user and the same
      random bytes, whatever their file names are. */
  lemma KeysDoNotCollide(user1: string, folder1: string, type1: string, name1: string, id1: seq<byte>,
                         user2: string, folder2: string, type2: string, name2: string, id2: seq<byte>)
    requires |id1| == |id2| == ID_BYTES && SlashFree(user1) && SlashFree(user2)
    requires GetUploadUrl(user1, folder1, type1, name1, id1).Ok?
    requires GetUploadUrl(user1, folder1, type1, name1, id1) == GetUploadUrl(user2, folder2, type2, name2, id2)
    ensures user1 == user2 && folder1 == folder2 && id1 == id2
  {
    FolderPrintsItself(folder1);
    FolderPrintsItself(folder2);
    ObjectNameSlashFree(id1, name1);
    ObjectNameSlashFree(id2, name2);
    var n1, n2 := ObjectName(id1, name1), ObjectName(id2, name2);
    KeySplits(folder1, user1, n1);
    KeySplits(folder2, user2, n2);
    assert [folder1, user1, n1] == [folder2, user2, n2];
    assert [folder1, user1, n1][2] == n1 && [folder2, user2, n2][2] == n2;
    assert n1[..2 * ID_BYTES] == Hex(id1) && n2[..2 * ID_BYTES] == Hex(id2);
    HexIsInjective(id1, id2);
  }

  // ---------- Which folder, which types ----------

  /** A message of a known type goes to its own folder, whatever its content; any other to the
      folder of its kind of content, and to files if that is no image, video or sound. */
  lemma FolderOfMessage(msgType: string, contentType: string)
    ensures UploadFolder("image", contentType) == "images" && UploadFolder("video", contentType) == "videos"
    ensures UploadFolder("voice", contentType) == "voices" && UploadFolder("file", contentType) == "files"
    ensures msgType !in {"image", "video", "voice", "file"} ==>
              var kind := if |contentType| >= 6 then contentType[..6] else "";
              UploadFolder(msgType, contentType) ==
              if kind == "image/" then "images" else if kind == "video/" then "videos"
              else if kind == "audio/" then "voices" else "files"
  {
    var kind := if |contentType| >= 6 then contentType[..6] else "";
    assert "image/" <= contentType <==> kind == "image/";
    assert "video/" <= contentType <==> kind == "video/";
    assert "audio/" <= contentType <==> kind == "audio/";
  }

  /** Images, videos and voices take only their own kind of content, files anything, and avatars
      exactly JPEG, PNG and WebP, which images take too. */
  lemma TypesOfFolders(user: string, mediaType: string, fileName: string, id: seq<byte>)
    requires user != []
    ensures GetUploadUrl(user, "images", mediaType, fileName, id).Ok? ==> "image/" <= mediaType
    ensures GetUploadUrl(user, "videos", mediaType, fileName, id).Ok? ==> "video/" <= mediaType
    ensures GetUploadUrl(user, "voices", mediaType, fileName, id).Ok? ==> "audio/" <= mediaType
    ensures GetUploadUrl(user, "files", mediaType, fileName, id).Ok?
    ensures GetUploadUrl(user, "avatars", mediaType, fileName, id).Ok?
       <==> mediaType in {"image/jpg", "image/jpeg", "image/png", "image/webp"}
    ensures GetUploadUrl(user, "avatars", mediaType, fileName, id).Ok? ==>
              GetUploadUrl(user, "images", mediaType, fileName, id).Ok?
  {
  }

  /** Nobody uploads without a name or to another folder. */
  lemma RefusedUploads(user: string, folder: string, mediaType: string, fileName: string, id: seq<byte>)
    ensures user == [] ==> GetUploadUrl(user, folder, mediaType, fileName, id) == Err(NoUser)
    ensures folder !in {"images", "videos", "voices", "files", "avatars"} ==>
              GetUploadUrl(user, folder, mediaType, fileName, id).Err?
  {
  }

  /** After the random part comes the file's own extension in lower case, unless it is longer
      than ten characters. */
  lemma ObjectNameShowsExtension(id: seq<byte>, fileName: string)
    ensures var ext, shown := Ext(fileName), ObjectName(id, fileName)[2 * |id|..];
            && (|ext| > 10 ==> shown == [])
            && (|ext| <= 10 ==>
                  && |shown| == |ext|
                  && forall i | 0 <= i < |ext| ::
                       && !('A' <= shown[i] <= 'Z')
                       && (shown[i] == ext[i] || ('A' <= ext[i] <= 'Z' && shown[i] - ext[i] == ' ')))
  {
    var ext, name := ToLower(Ext(fileName)), ObjectName(id, fileName);
    assert name[2 * |id|..] == if |ext| > MAX_EXT then [] else ext;
  }
}
