/**
 * `structure_creator`: the data type of an uploaded file, the manifest
 * records registered for the folders of an asset, and the new names the
 * files get when they are copied into the asset structure.
 */
module StructureCreator {
  import opened Wrappers
  import opened ODict
  import opened PyStr
  import opened JsonValue
  import opened PyPath
  import opened Scans

  /** `extensions`: the data type of a file extension. */
  const Extensions: Dict<string> := [
    ("png", "Image"), ("mp4", "Video"), ("txt", "Document"), ("pdf", "Document"),
    ("doc", "Document"), ("geojson", "Routing"), ("bjson", "AssetData"), ("zip", "Asset")]

  /** An entry of `type_data`: the folder of a type and the mask of its file names. */
  datatype TypeInfo = TypeInfo(folder: string, mask: string)

  /** `type_data`, in its declared order. */
  const TypeData: Dict<TypeInfo> := [
    ("AssetData", TypeInfo("data", "{asset}")),
    ("Data", TypeInfo("data", "{asset}")),
    ("Document", TypeInfo("documentation", "{asset}_technicalDocumentation")),
    ("License", TypeInfo("", "LICENSE")),
    ("Metadata", TypeInfo("metadata", "domain_metadata")),
    ("Validation", TypeInfo("validation", "qcReport")),
    ("Image", TypeInfo("visualization", "{asset}")),
    ("Routing", TypeInfo("visualization", "roadNetwork")),
    ("Video", TypeInfo("visualization", "{asset}")),
    ("3DPreview", TypeInfo("visualization", "detailRoadNetwork"))]

  /** A file-system entry as `rglob` yields it: its path, and whether the
      file system reports it as a directory. */
  datatype FsEntry = FsEntry(path: string, isDir: bool)

  /** The `is_dir()` test that `register_data` skips on. */
  function NotDir(e: FsEntry): Result<bool> { Ok(!e.isDir) }

  // ------------------------------------------------------------ data types

  /** The `i`th type is the first one whose folder is `sub`. */
  predicate FirstWithFolder(td: Dict<TypeInfo>, sub: string, i: int)
  {
    0 <= i < |td| && td[i].1.folder == sub && forall j :: 0 <= j < i ==> td[j].1.folder != sub
  }

  /** The search of `get_data_typ` through the types for a folder name. */
  function FolderType(td: Dict<TypeInfo>, sub: string): Option<string>
  {
    if |td| == 0 then None
    else if td[0].1.folder == sub then Some(td[0].0)
    else FolderType(td[1..], sub)
  }

  /** The search finds the first type with that folder, and nothing when no
      type has it. */
  lemma {:induction false} FolderTypeFirst(td: Dict<TypeInfo>, sub: string)
    ensures FolderType(td, sub).None? <==> forall i :: 0 <= i < |td| ==> td[i].1.folder != sub
    ensures FolderType(td, sub).Some? ==>
              exists i :: FirstWithFolder(td, sub, i) && td[i].0 == FolderType(td, sub).value
  {
    if |td| > 0 {
      if td[0].1.folder == sub {
        assert FirstWithFolder(td, sub, 0);
      } else {
        var rest := td[1..];
        FolderTypeFirst(rest, sub);
        if FolderType(rest, sub).Some? {
          var i :| FirstWithFolder(rest, sub, i) && rest[i].0 == FolderType(rest, sub).value;
          assert FirstWithFolder(td, sub, i + 1);
        } else {
          forall i | 0 <= i < |td|
            ensures td[i].1.folder != sub
          {
            if i > 0 {
              assert td[i] == rest[i - 1];
            }
          }
        }
      }
    }
  }

  /** The folder names of `type_data` and the type each one selects: where
      two types share a folder the earlier one wins, so `Data`, `Routing`,
      `Video` and `3DPreview` are never found by folder. */
  lemma FolderTypes()
    ensures FolderType(TypeData, "data") == Some("AssetData")
    ensures FolderType(TypeData, "documentation") == Some("Document")
    ensures FolderType(TypeData, "") == Some("License")
    ensures FolderType(TypeData, "metadata") == Some("Metadata")
    ensures FolderType(TypeData, "validation") == Some("Validation")
    ensures FolderType(TypeData, "visualization") == Some("Image")
    ensures FolderType(TypeData, "temp") == None
  {
  }

  /** The folder name `get_data_typ` looks up: a directory's own name, a
      file's parent folder name. */
  function SubPath(e: FsEntry): string
  {
    if e.isDir then Name(e.path) else ParentName(e.path)
  }

  /** `get_data_typ`. */
  function GetDataType(e: FsEntry): Option<string>
  {
    match Get(Extensions, Extension(Name(e.path)))
    case Some(t) => Some(t)
    case None => FolderType(TypeData, SubPath(e))
  }

  /** A known extension decides the type; otherwise it is the first type
      whose folder is the entry's folder name, or none. */
  lemma DataTypeOf(e: FsEntry)
    ensures var ext := Extension(Name(e.path));
            var r := GetDataType(e);
            (ext in Keys(Extensions) ==> r == Get(Extensions, ext))
            && (ext !in Keys(Extensions) ==>
                  (r.None? <==> forall i :: 0 <= i < |TypeData| ==> TypeData[i].1.folder != SubPath(e))
                  && (r.Some? ==> exists i :: FirstWithFolder(TypeData, SubPath(e), i) && TypeData[i].0 == r.value))
  {
    FolderTypeFirst(TypeData, SubPath(e));
  }

  // --------------------------------------------------------------- get_file

  /** `file['filename'] == filename` for one entry of the user data. */
  function FilenameIs(name: string): Json -> Result<bool>
  {
    f => var v :- Index(f, "filename"); Ok(v == JStr(name))
  }

  /** `get_file`. */
  function GetFile(userData: seq<Json>, name: string): Result<Option<Json>>
  {
    FirstMatch(userData, FilenameIs(name))
  }

  /** After entries whose filename is readable and different, the next entry
      decides: its filename matching, it is returned; unreadable (not a dict,
      or no `filename`), its error is raised. */
  lemma GetFileAt(userData: seq<Json>, name: string, i: nat)
    requires i < |userData|
    requires forall j :: 0 <= j < i ==> Index(userData[j], "filename").Ok? && Index(userData[j], "filename").value != JStr(name)
    ensures Index(userData[i], "filename") == Ok(JStr(name)) ==> GetFile(userData, name) == Ok(Some(userData[i]))
    ensures Index(userData[i], "filename").Err? ==> GetFile(userData, name) == Err(Index(userData[i], "filename").error)
  {
    FirstMatchAt(userData, FilenameIs(name), i);
  }

  /** Nothing is found exactly when every entry has a readable filename and
      none is `name`. */
  lemma GetFileNone(userData: seq<Json>, name: string)
    ensures GetFile(userData, name) == Ok(None)
            <==> forall j :: 0 <= j < |userData| ==> Index(userData[j], "filename").Ok? && Index(userData[j], "filename").value != JStr(name)
  {
    FirstMatchNone(userData, FilenameIs(name));
  }

  // ------------------------------------------------------- manifest records

  /** A JSON `None` or string. */
  function OptStr(o: Option<string>): Json
  {
    match o
    case Some(s) => JStr(s)
    case None => JNull
  }

  /** The dict of one registered file, with its keys in the order the tool
      sets them. */
  function FileRecord(role: string, relPath: string, typ: Json, format: string): Json
  {
    JObj([("manifest:accessRole", JStr(role)), ("manifest:relativePath", JStr(relPath)),
          ("manifest:type", typ), ("manifest:format", JStr(format))])
  }

  lemma FileRecordKeys(role: string, relPath: string, typ: Json, format: string)
    ensures var rec := FileRecord(role, relPath, typ, format);
            Keys(rec.fields) == ["manifest:accessRole", "manifest:relativePath", "manifest:type", "manifest:format"]
            && rec.fields[0].1 == JStr(role) && rec.fields[1].1 == JStr(relPath)
            && rec.fields[2].1 == typ && rec.fields[3].1 == JStr(format)
  {
  }

  /** `register_asset`: the category becomes a one-element list holding the
      record of `filename`. */
  method RegisterAsset(data: Dict<Json>, filename: string, isDir: bool, role: string, category: string)
    returns (r: Dict<Json>)
    ensures Get(r, category) == Some(JArr([FileRecord(role, PathStr(filename),
              OptStr(GetDataType(FsEntry(filename, isDir))), Extension(Name(filename)))]))
    ensures forall k :: k != category ==> Get(r, k) == Get(data, k)
    ensures Keys(r) == if category in Keys(data) then Keys(data) else Keys(data) + [category]
  {
    var files: seq<Json> := [];
    var typ := GetDataType(FsEntry(filename, isDir));
    var fileData := FileRecord(role, PathStr(filename), OptStr(typ), Extension(Name(filename)));
    files := files + [fileData];
    assert files == [fileData];
    r := Put(data, category, JArr(files));
    PutKeys(data, category, JArr(files));
  }

  /** The type `register_data` records: the user's `type` for a file the
      user described, otherwise the type found from the file itself. A
      described entry is a non-empty dict (it has a filename), so it is
      truthy. */
  function RecordType(userData: seq<Json>, e: FsEntry): Result<Json>
  {
    var file :- GetFile(userData, Name(e.path));
    match file
    case Some(f) => Index(f, "type")
    case None => Ok(OptStr(GetDataType(e)))
  }

  /** The record `register_data` builds for one file. */
  function RecordFor(userData: seq<Json>, e: FsEntry, dataPath: string, role: string): Result<Json>
  {
    var typ :- RecordType(userData, e);
    var rel :- RelativeTo(e.path, dataPath);
    Ok(FileRecord(if typ == JStr("Service") then "publicUser" else role, rel, typ, Extension(Name(e.path))))
  }

  /** A record holds the four keys in order; a `Service` gets the public
      role and everything else the given one; the relative path leads from
      the data folder back to the file. */
  lemma RecordShape(userData: seq<Json>, e: FsEntry, dataPath: string, role: string)
    requires RecordFor(userData, e, dataPath, role).Ok?
    ensures var rec := RecordFor(userData, e, dataPath, role).value;
            var typ := RecordType(userData, e).value;
            rec.JObj?
            && Keys(rec.fields) == ["manifest:accessRole", "manifest:relativePath", "manifest:type", "manifest:format"]
            && rec.fields[0].1 == JStr(if typ == JStr("Service") then "publicUser" else role)
            && rec.fields[1].1.JStr? && Root(rec.fields[1].1.s) == ""
            && Parts(dataPath) + Parts(rec.fields[1].1.s) == Parts(e.path)
            && rec.fields[2].1 == typ
            && rec.fields[3].1 == JStr(Extension(Name(e.path)))
  {
    RecordForParts(userData, e, dataPath, role);
    var typ := RecordType(userData, e).value;
    var rel := RelativeTo(e.path, dataPath).value;
    var access := if typ == JStr("Service") then "publicUser" else role;
    FileRecordKeys(access, rel, typ, Extension(Name(e.path)));
    RelativeToParts(e.path, dataPath);
  }

  /** A record that succeeds is built from the type and the relative path. */
  lemma RecordForParts(userData: seq<Json>, e: FsEntry, dataPath: string, role: string)
    requires RecordFor(userData, e, dataPath, role).Ok?
    ensures RecordType(userData, e).Ok? && RelativeTo(e.path, dataPath).Ok?
    ensures var typ := RecordType(userData, e).value;
            RecordFor(userData, e, dataPath, role)
            == Ok(FileRecord(if typ == JStr("Service") then "publicUser" else role,
                             RelativeTo(e.path, dataPath).value, typ, Extension(Name(e.path))))
  {
  }

  function RecordOf(userData: seq<Json>, dataPath: string, role: string): FsEntry -> Result<Json>
  {
    e => RecordFor(userData, e, dataPath, role)
  }

  /** The records of `register_data`'s loop over the found entries. */
  function Records(userData: seq<Json>, entries: seq<FsEntry>, dataPath: string, role: string): Result<seq<Json>>
  {
    Collect(entries, NotDir, RecordOf(userData, dataPath, role))
  }

  /** Registering is made of one record per file, skipping directories and
      keeping the order; it fails exactly when some file's record fails. */
  lemma RecordsInOrder(userData: seq<Json>, entries: seq<FsEntry>, dataPath: string, role: string)
    ensures Records(userData, entries, dataPath, role).Ok?
            <==> forall i :: 0 <= i < |entries| && !entries[i].isDir ==> RecordFor(userData, entries[i], dataPath, role).Ok?
    ensures Records(userData, entries, dataPath, role).Ok? ==>
              var rs := Records(userData, entries, dataPath, role).value;
              var files := Kept(entries, NotDir);
              |rs| == |files| && forall j :: 0 <= j < |rs| ==> RecordFor(userData, files[j], dataPath, role) == Ok(rs[j])
  {
    CollectPointwise(entries, NotDir, RecordOf(userData, dataPath, role));
  }

  /** Adding the records to the category: nothing without records, a new
      list for a new category, an extended list otherwise (a value that is
      not a list has no `extend`). */
  function Merge(data: Dict<Json>, category: string, files: seq<Json>): Result<Dict<Json>>
  {
    if |files| == 0 then Ok(data)
    else match Get<Json>(data, category)
      case None => Ok(Put(data, category, JArr(files)))
      case Some(JArr(xs)) => Ok(Put(data, category, JArr(xs + files)))
      case Some(_) => Err(AttributeError("object has no attribute 'extend'"))
  }

  /** Records never replace what the category held: a new category is
      appended holding them, a list keeps its items and gains them at the
      end in place, every other key is untouched. */
  lemma MergeEffect(data: Dict<Json>, category: string, files: seq<Json>)
    ensures |files| == 0 ==> Merge(data, category, files) == Ok(data)
    ensures |files| > 0 && category !in Keys(data) ==> Merge(data, category, files) == Ok(data + [(category, JArr(files))])
    ensures |files| > 0 && category in Keys(data) ==>
              match Get(data, category).value
              case JArr(xs) =>
                var r := Merge(data, category, files);
                r.Ok? && Keys(r.value) == Keys(data) && Get(r.value, category) == Some(JArr(xs + files))
                && forall k :: k != category ==> Get(r.value, k) == Get(data, k)
              case _ => Merge(data, category, files).Err? && Merge(data, category, files).error.AttributeError?
  {
    if |files| > 0 {
      if category !in Keys(data) {
        PutNewAppends(data, category, JArr(files));
      } else if Get(data, category).value.JArr? {
        PutKeys(data, category, JArr(Get(data, category).value.items + files));
      }
    }
  }

  /** `register_data` (`pathExists` is `path.exists()`, `entries` what
      `path.rglob("*")` yields): nothing when the folder does not exist; otherwise
      one record per file found, added to the category. */
  method RegisterData(data: Dict<Json>, userData: seq<Json>, pathExists: bool, entries: seq<FsEntry>,
                      dataPath: string, role: string, category: string)
    returns (r: Result<Dict<Json>>)
    ensures r == if !pathExists then Ok(data)
                 else match Records(userData, entries, dataPath, role)
                      case Err(e) => Err(e)
                      case Ok(files) => Merge(data, category, files)
  {
    if !pathExists {
      return Ok(data);
    }
    ghost var f := RecordOf(userData, dataPath, role);
    var files: seq<Json> := [];
    var i := 0;
    while i < |entries|
      invariant 0 <= i <= |entries|
      invariant Collect(entries[..i], NotDir, f) == Ok(files)
    {
      CollectNext(entries, NotDir, f, i);
      var filename := entries[i];
      if !filename.isDir {
        var fileData := RecordFor(userData, filename, dataPath, role);
        if fileData.Err? {
          CollectErrPrefix(entries, NotDir, f, i + 1);
          return Err(fileData.error);
        }
        files := files + [fileData.value];
      }
      i := i + 1;
    }
    assert entries[..|entries|] == entries;
    assert Records(userData, entries, dataPath, role) == Ok(files);
    r := AddFiles(data, category, files);
  }

  /** The end of `register_data`: a non-empty list of records extends the
      category's list, or becomes the category's value when it is unset. */
  method AddFiles(data: Dict<Json>, category: string, files: seq<Json>) returns (r: Result<Dict<Json>>)
    ensures r == Merge(data, category, files)
  {
    if |files| > 0 {
      match Get<Json>(data, category)
      case None =>
        r := Ok(Put(data, category, JArr(files)));
      case Some(JArr(xs)) =>
        r := Ok(Put(data, category, JArr(xs + files)));
      case Some(_) =>
        r := Err(AttributeError("object has no attribute 'extend'"));
    } else {
      r := Ok(data);
    }
  }

  // ------------------------------------------------------------ file names

  /** A non-empty text without a slash. */
  predicate PlainText(m: string)
  {
    |m| > 0 && forall k :: 0 <= k < |m| ==> m[k] != '/'
  }

  /** The masks have no directory part and are never empty. */
  lemma MasksPlain()
    ensures forall i :: 0 <= i < |TypeData| ==> PlainText(TypeData[i].1.mask)
  {
    MaskTextsPlain();
  }

  lemma MaskTextsPlain()
    ensures PlainText("{asset}") && PlainText("{asset}_technicalDocumentation") && PlainText("LICENSE")
    ensures PlainText("domain_metadata") && PlainText("qcReport") && PlainText("roadNetwork")
    ensures PlainText("detailRoadNetwork")
  {
  }

  /** The mask of a known type has no directory part and is not empty. */
  lemma KnownMask(typ: string)
    requires typ in Keys(TypeData)
    ensures '/' !in Get(TypeData, typ).value.mask && |Get(TypeData, typ).value.mask| > 0
  {
    var info := Get(TypeData, typ).value;
    var i :| 0 <= i < |TypeData| && TypeData[i] == (typ, info);
    MasksPlain();
  }

  /** The index text of an impression: `str(index).zfill(2)`. */
  function ImpressionNumber(index: int): string
  {
    Zfill(IntToStr(index), 2)
  }

  /** The tag of an image: `_eyecatcher` for index 0, `_impression-` and
      the index text otherwise. */
  function ImageTag(index: int): string
  {
    if index == 0 then "_eyecatcher" else "_impression-" + ImpressionNumber(index)
  }

  /** The new name without its suffix: the mask with `{asset}` replaced,
      followed for images by `_eyecatcher` (index 0) or `_impression-` and
      the index. */
  function NewStem(mask: string, assetName: string, typ: string, index: int): string
  {
    var base := Replace(mask, "{asset}", assetName);
    if typ == "Image" then base + ImageTag(index) else base
  }

  /** `createFileName`: an unknown type ends the program; otherwise the new
      name is the type's mask with the asset name put in (the `{file}`
      substitution of the source is overwritten before use, so the old stem
      plays no part), the image tag, and the old suffix. */
  function CreateFileName(filename: string, assetName: string, typ: string, index: int): (r: Result<string>)
    ensures r.Err? <==> typ !in Keys(TypeData)
    ensures r.Err? ==> r.error.Exit?
  {
    match Get(TypeData, typ)
    case None => Err(Exit("type not found in type_data"))
    case Some(info) => Ok(PathStr(NewStem(info.mask, assetName, typ, index) + Suffix(Name(filename))))
  }

  /** The old file's stem does not matter: only its suffix does. */
  lemma CreateFileNameIgnoresStem(f1: string, f2: string, assetName: string, typ: string, index: int)
    requires Suffix(Name(f1)) == Suffix(Name(f2))
    ensures CreateFileName(f1, assetName, typ, index) == CreateFileName(f2, assetName, typ, index)
  {
  }

  /** The index text is made of digits, with a sign for a negative index. */
  lemma ImpressionNumberChars(index: int)
    ensures forall c :: c in ImpressionNumber(index) ==> IsDigit(c) || c == '-'
  {
    var s := IntToStr(index);
    assert forall c :: c in s ==> IsDigit(c) || c == '-' by {
      if index < 0 {
        assert s == "-" + NatToStr(-index);
      }
    }
  }

  /** A positive index reads back from its text. */
  lemma ImpressionNumberReadsBack(index: int)
    requires index > 0
    ensures ParseInt(ImpressionNumber(index)) == Some(index)
  {
    var s := NatToStr(index);
    DigitsOfNat(index);
    if |s| < 2 {
      var z := ImpressionNumber(index);
      assert z == "0" + s;
      assert z[..1] == "0";
      assert DigitsValue(z) == DigitsValue("0") * 10 + DigitValue(s[0]);
      assert s[..0] == "";
    }
  }

  /** The masked part of a known type's name has no directory part and is
      not empty, given such an asset name. */
  lemma NewStemPlain(mask: string, typ: string, assetName: string, index: int)
    requires '/' !in mask && |mask| > 0
    requires '/' !in assetName && |assetName| > 0
    ensures var n := NewStem(mask, assetName, typ, index);
            '/' !in n && |n| > 0
  {
    var base := Replace(mask, "{asset}", assetName);
    ReplaceChars(mask, "{asset}", assetName);
    assert '/' !in base && |base| > 0;
    if typ == "Image" {
      var tag := ImageTag(index);
      assert '/' !in tag by {
        if index != 0 {
          ImpressionNumberChars(index);
          assert '/' !in "_impression-";
        }
      }
      assert NewStem(mask, assetName, typ, index) == base + tag;
    }
  }

  /** A name made for a known type and an old file with a suffix is a
      single plain name; it keeps the old suffix, and its stem is the masked
      part. */
  lemma CreateFileNameParts(filename: string, assetName: string, typ: string, index: int)
    requires typ in Keys(TypeData)
    requires '/' !in assetName && |assetName| > 0
    requires Suffix(Name(filename)) != ""
    ensures var r := CreateFileName(filename, assetName, typ, index);
            var stem := NewStem(Get(TypeData, typ).value.mask, assetName, typ, index);
            r.Ok? && Name(r.value) == r.value && '/' !in r.value
            && Suffix(r.value) == Suffix(Name(filename)) && Stem(r.value) == stem
  {
    var stem := NewStem(Get(TypeData, typ).value.mask, assetName, typ, index);
    var name := Name(filename);
    var ext := Suffix(name);
    KnownMask(typ);
    NewStemPlain(Get(TypeData, typ).value.mask, typ, assetName, index);
    PartsClean(filename);
    StemSuffix(name);
    assert forall c :: c in ext ==> c in name;
    var n := stem + ext;
    assert '/' !in n;
    PlainName(n);
    SuffixAppend(stem, ext);
  }

  /** Different image indices get different tags. */
  lemma ImageTagsDistinct(i: int, j: int)
    requires i >= 0 && j >= 0 && i != j
    ensures ImageTag(i) != ImageTag(j)
  {
    var ti := ImageTag(i);
    var tj := ImageTag(j);
    if i == 0 {
      assert ti[1] == 'e' && tj[1] == 'i';
    } else if j == 0 {
      assert ti[1] == 'i' && tj[1] == 'e';
    } else if ti == tj {
      assert ImpressionNumber(i) == ti[12..] == tj[12..] == ImpressionNumber(j);
      ImpressionNumberReadsBack(i);
      ImpressionNumberReadsBack(j);
    }
  }

  /** The suffix of a path's name has no directory part. */
  lemma SuffixPlain(filename: string)
    ensures '/' !in Suffix(Name(filename))
  {
    var name := Name(filename);
    PartsClean(filename);
    StemSuffix(name);
    assert forall c :: c in Suffix(name) ==> c in name;
  }

  /** An image tag has no directory part and starts with `_`. */
  lemma ImageTagPlain(index: int)
    ensures '/' !in ImageTag(index) && |ImageTag(index)| > 0 && ImageTag(index)[0] == '_'
  {
    ImpressionNumberChars(index);
  }

  /** Images take the mask `{asset}`, which becomes the asset name. */
  lemma ImageMask(assetName: string)
    ensures Get(TypeData, "Image") == Some(TypeInfo("visualization", "{asset}"))
    ensures Replace("{asset}", "{asset}", assetName) == assetName
  {
    ReplaceLeading("{asset}", "", assetName);
    assert "{asset}" + "" == "{asset}";
  }

  /** An image's name is the asset name, its tag and the old suffix. */
  lemma ImageName(filename: string, assetName: string, index: int)
    requires '/' !in assetName
    ensures CreateFileName(filename, assetName, "Image", index)
            == Ok(assetName + ImageTag(index) + Suffix(Name(filename)))
  {
    ImageMask(assetName);
    SuffixPlain(filename);
    ImageTagPlain(index);
    var n := assetName + ImageTag(index) + Suffix(Name(filename));
    assert n[|assetName|] == '_';
    PlainName(n);
  }

  /** Texts that differ only in the middle differ. */
  lemma DistinctMiddle(a: string, x: string, y: string, c: string)
    requires x != y
    ensures a + x + c != a + y + c
  {
    if |x| == |y| {
      var k :| 0 <= k < |x| && x[k] != y[k];
      assert (a + x + c)[|a| + k] == x[k];
      assert (a + y + c)[|a| + k] == y[k];
    }
  }

  /** Two different image indices never give the same name, so no image
      overwrites another one. */
  lemma ImageNamesDistinct(filename: string, assetName: string, i: int, j: int)
    requires '/' !in assetName
    requires i >= 0 && j >= 0 && i != j
    ensures CreateFileName(filename, assetName, "Image", i) != CreateFileName(filename, assetName, "Image", j)
  {
    ImageName(filename, assetName, i);
    ImageName(filename, assetName, j);
    ImageTagsDistinct(i, j);
    DistinctMiddle(assetName, ImageTag(i), ImageTag(j), Suffix(Name(filename)));
  }
}
