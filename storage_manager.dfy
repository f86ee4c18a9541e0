/**
 * The save/load rules of the browser game: the checks applied to saved data, the in-place
 * version migration chain, the compression marker, and the choice and pruning of backups.
 * Storage itself is an abstract list of keys; reading, writing, JSON text and base64 are
 * not modelled (the base64 codec is a parameter where it is used).
 */
module StorageManager {
  import opened Wrappers

  /** A parsed JSON value. Numbers are integers. */
  datatype Json = JNull | JBool(b: bool) | JNum(n: int) | JStr(s: string)
                | JArr(items: seq<Json>) | JObj(fields: map<string, Json>)

  /** The results of `typeof` a JSON value can have; `null` and arrays are objects. */
  datatype JsType = TBoolean | TNumber | TString | TObject

  function TypeOf(j: Json): JsType
  {
    match j
    case JNull => TObject
    case JBool(_) => TBoolean
    case JNum(_) => TNumber
    case JStr(_) => TString
    case JArr(_) => TObject
    case JObj(_) => TObject
  }

  predicate Truthy(j: Json)
  {
    match j
    case JNull => false
    case JBool(b) => b
    case JNum(n) => n != 0
    case JStr(s) => s != ""
    case JArr(_) => true
    case JObj(_) => true
  }

  /** `j.key`: a property of an object, absent (undefined) otherwise. */
  function Member(j: Json, key: string): Option<Json>
  {
    if j.JObj? && key in j.fields then Some(j.fields[key]) else None
  }

  predicate TruthyMember(j: Json, key: string)
  {
    Member(j, key).Some? && Truthy(Member(j, key).value)
  }

  /** `x || fallback` for a possibly undefined value. */
  function OrElse(x: Option<Json>, fallback: Json): Json
  {
    if x.Some? && Truthy(x.value) then x.value else fallback
  }

  // ---------------------------------------------------------------------------
  // Validation
  // ---------------------------------------------------------------------------

  datatype DataError = NotAnObject | ResourcesNotObject | FarmDataNotArray

  datatype SchemaField = Version | Timestamp | GameData

  function FieldName(f: SchemaField): string
  {
    match f
    case Version => "version"
    case Timestamp => "timestamp"
    case GameData => "gameData"
  }

  /** The schema, in the order it is checked: every field is required. */
  const Schema: seq<(SchemaField, JsType)> := [(Version, TString), (Timestamp, TNumber), (GameData, TObject)]

  datatype PackageError = MissingField(field: SchemaField) | WrongType(field: SchemaField, expected: JsType)

  datatype Validation<E> = Validation(valid: bool, errors: seq<E>)

  /** validateGameData. */
  function ValidateGameData(g: Json): (r: Validation<DataError>)
    ensures r.valid <==> r.errors == []
    ensures !Truthy(g) || TypeOf(g) != TObject ==> r.errors == [NotAnObject]
    ensures Truthy(g) && TypeOf(g) == TObject ==>
      (r.valid <==> (TruthyMember(g, "resources") ==> TypeOf(Member(g, "resources").value) == TObject)
                    && (TruthyMember(g, "farmData") ==> Member(g, "farmData").value.JArr?))
    ensures |r.errors| <= 2
  {
    if !Truthy(g) || TypeOf(g) != TObject then Validation(false, [NotAnObject])
    else
      var errors :=
        (if TruthyMember(g, "resources") && TypeOf(Member(g, "resources").value) != TObject then [ResourcesNotObject] else [])
        + (if TruthyMember(g, "farmData") && !Member(g, "farmData").value.JArr? then [FarmDataNotArray] else []);
      Validation(errors == [], errors)
  }

  /** What the schema says about one field of a save package. */
  function FieldErrors(pkg: map<string, Json>, rule: (SchemaField, JsType)): seq<PackageError>
  {
    var name := FieldName(rule.0);
    if name !in pkg then [MissingField(rule.0)]
    else if TypeOf(pkg[name]) != rule.1 then [WrongType(rule.0, rule.1)]
    else []
  }

  /** The errors for the first rules of the schema, in schema order. */
  function SchemaErrors(pkg: map<string, Json>, rules: seq<(SchemaField, JsType)>): seq<PackageError>
  {
    if rules == [] then [] else SchemaErrors(pkg, rules[..|rules| - 1]) + FieldErrors(pkg, rules[|rules| - 1])
  }

  /** A package field that is present with the type the schema asks for. */
  predicate FieldOk(pkg: map<string, Json>, f: SchemaField, t: JsType)
  {
    FieldName(f) in pkg && TypeOf(pkg[FieldName(f)]) == t
  }

  /** Every rule contributes at most one error, and none exactly when its field is fine. */
  lemma {:induction false} SchemaErrorsFacts(pkg: map<string, Json>, rules: seq<(SchemaField, JsType)>)
    ensures |SchemaErrors(pkg, rules)| <= |rules|
    ensures SchemaErrors(pkg, rules) == [] <==> forall i | 0 <= i < |rules| :: FieldOk(pkg, rules[i].0, rules[i].1)
  {
    if rules != [] {
      var init := rules[..|rules| - 1];
      SchemaErrorsFacts(pkg, init);
      assert forall i | 0 <= i < |init| :: init[i] == rules[i];
    }
  }

  /** A package passes validateSavePackage exactly when it has a string version, a number timestamp and object game data. */
  lemma PackageValidIff(pkg: map<string, Json>)
    ensures SchemaErrors(pkg, Schema) == [] <==>
      FieldOk(pkg, Version, TString) && FieldOk(pkg, Timestamp, TNumber) && FieldOk(pkg, GameData, TObject)
    ensures |SchemaErrors(pkg, Schema)| <= 3
  {
    SchemaErrorsFacts(pkg, Schema);
    if FieldOk(pkg, Version, TString) && FieldOk(pkg, Timestamp, TNumber) && FieldOk(pkg, GameData, TObject) {
      assert forall i | 0 <= i < |Schema| :: FieldOk(pkg, Schema[i].0, Schema[i].1);
    } else {
      assert !(FieldOk(pkg, Schema[0].0, Schema[0].1) && FieldOk(pkg, Schema[1].0, Schema[1].1)
               && FieldOk(pkg, Schema[2].0, Schema[2].1));
    }
  }

  /** validateSavePackage: walk the schema, one error per missing or mistyped field. */
  method ValidateSavePackage(pkg: map<string, Json>) returns (r: Validation<PackageError>)
    ensures r.errors == SchemaErrors(pkg, Schema)
    ensures r.valid <==> r.errors == []
  {
    var errors: seq<PackageError> := [];
    var i := 0;
    while i < |Schema|
      invariant 0 <= i <= |Schema|
      invariant errors == SchemaErrors(pkg, Schema[..i])
    {
      assert Schema[..i + 1][..i] == Schema[..i];
      var (field, expected) := Schema[i];
      var name := FieldName(field);
      if name !in pkg {
        errors := errors + [MissingField(field)];
      } else if TypeOf(pkg[name]) != expected {
        errors := errors + [WrongType(field, expected)];
      }
      i := i + 1;
    }
    assert Schema[..i] == Schema;
    return Validation(|errors| == 0, errors);
  }

  // ---------------------------------------------------------------------------
  // Migration
  // ---------------------------------------------------------------------------

  const CurrentVersion: string := "3.0"

  /** The property names the v1 migration builds are pairwise different. */
  lemma V1NamesDiffer()
    ensures "money" != "level" && "money" != "xp" && "money" != "totalHarvests"
    ensures "level" != "xp" && "level" != "totalHarvests" && "xp" != "totalHarvests"
    ensures "resources" != "selectedCrop" && "resources" != "farmData" && "selectedCrop" != "farmData"
    ensures "gameData" != "playerStats" && "gameData" != "version" && "playerStats" != "version"
  {
    assert "money"[0] != "level"[0] && "money"[0] != "xp"[0] && "money"[0] != "totalHarvests"[0];
    assert "level"[0] != "xp"[0] && "level"[0] != "totalHarvests"[0] && "xp"[0] != "totalHarvests"[0];
    assert "resources"[0] != "selectedCrop"[0] && "resources"[0] != "farmData"[0] && "selectedCrop"[0] != "farmData"[0];
    assert "gameData"[0] != "playerStats"[0] && "gameData"[0] != "version"[0] && "playerStats"[0] != "version"[0];
  }

  /** Old player statistics were present and truthy. */
  predicate HasPlayerStats(f: map<string, Json>)
  {
    "playerStats" in f && Truthy(f["playerStats"])
  }

  /** The resource record built from v1 statistics: money reset to 50, the rest defaulted. */
  function V1Stats(ps: Json): (r: Json)
    ensures r.JObj?
    ensures Member(r, "money") == Some(JNum(50))
    ensures Member(r, "level") == Some(if TruthyMember(ps, "level") then ps.fields["level"] else JNum(1))
    ensures Member(r, "xp") == Some(if TruthyMember(ps, "xp") then ps.fields["xp"] else JNum(0))
    ensures Member(r, "totalHarvests") == Some(if TruthyMember(ps, "totalHarvests") then ps.fields["totalHarvests"] else JNum(0))
  {
    V1NamesDiffer();
    JObj(map["money" := JNum(50),
             "level" := OrElse(Member(ps, "level"), JNum(1)),
             "xp" := OrElse(Member(ps, "xp"), JNum(0)),
             "totalHarvests" := OrElse(Member(ps, "totalHarvests"), JNum(0))])
  }

  /** The game data built by the v1 migration from the old package fields. */
  function V1GameData(f: map<string, Json>, ps: Json): (g: Json)
    ensures g.JObj?
    ensures Member(g, "resources") == Some(JObj(map["resources" := V1Stats(ps)]))
    ensures Member(g, "selectedCrop") == Some(if TruthyMember(JObj(f), "selectedCrop") then f["selectedCrop"] else JStr("wheat"))
    ensures Member(g, "farmData") == Some(if TruthyMember(JObj(f), "farmData") then f["farmData"] else JArr([]))
    ensures Member(g, "version").None?
  {
    V1NamesDiffer();
    assert "version"[0] != "resources"[0] && "version"[0] != "selectedCrop"[0] && "version"[0] != "farmData"[0];
    var selected := OrElse(Member(JObj(f), "selectedCrop"), JStr("wheat"));
    var farmData := OrElse(Member(JObj(f), "farmData"), JArr([]));
    var fields := map["resources" := JObj(map["resources" := V1Stats(ps)]), "selectedCrop" := selected, "farmData" := farmData];
    assert fields.Keys == {"resources", "selectedCrop", "farmData"};
    assert fields["selectedCrop"] == selected && fields["farmData"] == farmData;
    JObj(fields)
  }

  /**
   * migrateFromV1 on the package's fields: truthy player statistics become the game data's
   * resources, the statistics are dropped, and the package is stamped 2.0.
   */
  function FromV1(f: map<string, Json>): (r: map<string, Json>)
    ensures HasPlayerStats(f) ==> "playerStats" !in r
    ensures "version" in r && r["version"] == JStr("2.0")
    ensures forall k | k in f && k != "playerStats" && k != "version" && k != "gameData" :: k in r && r[k] == f[k]
    ensures !HasPlayerStats(f) ==> r == f["version" := JStr("2.0")]
    ensures HasPlayerStats(f) ==> "gameData" in r && r["gameData"] == V1GameData(f, f["playerStats"])
  {
    V1NamesDiffer();
    var moved := if HasPlayerStats(f) then f["gameData" := V1GameData(f, f["playerStats"])] - {"playerStats"} else f;
    moved["version" := JStr("2.0")]
  }

  /** Game data built from v1 statistics passes validateGameData unless the old farm data was not a list. */
  lemma FromV1GameDataValid(f: map<string, Json>)
    requires HasPlayerStats(f)
    requires !TruthyMember(JObj(f), "farmData") || f["farmData"].JArr?
    ensures "gameData" in FromV1(f) && ValidateGameData(FromV1(f)["gameData"]).valid
  {
  }

  /** migrateFromV2: game data objects without a version get 3.0; the package is stamped 3.0. */
  function FromV2(f: map<string, Json>): (r: map<string, Json>)
    ensures r.Keys == f.Keys + {"version"} && r["version"] == JStr(CurrentVersion)
    ensures forall k | k in f && k != "version" && k != "gameData" :: r[k] == f[k]
    ensures "gameData" in f && f["gameData"].JObj? && !TruthyMember(f["gameData"], "version") ==>
      r["gameData"] == JObj(f["gameData"].fields["version" := JStr(CurrentVersion)])
    ensures "gameData" in f && !(f["gameData"].JObj? && !TruthyMember(f["gameData"], "version")) ==>
      r["gameData"] == f["gameData"]
  {
    var stamped :=
      if "gameData" in f && f["gameData"].JObj? && !TruthyMember(f["gameData"], "version") then
        f["gameData" := JObj(f["gameData"].fields["version" := JStr(CurrentVersion)])]
      else f;
    stamped["version" := JStr(CurrentVersion)]
  }

  /** The v1 test: `!version || version === '1.0'`. */
  predicate IsV1(f: map<string, Json>)
  {
    !TruthyMember(JObj(f), "version") || f["version"] == JStr("1.0")
  }

  /**
   * migrateSaveData on the package's fields: nothing to do for the current version;
   * otherwise v1 is lifted to v2, v2 to v3, and the result is stamped with the current version.
   */
  function Migrated(f: map<string, Json>): (r: Option<map<string, Json>>)
    ensures r.None? <==> "version" in f && f["version"] == JStr(CurrentVersion)
    ensures r.Some? ==> "version" in r.value && r.value["version"] == JStr(CurrentVersion)
    ensures r.Some? && IsV1(f) && HasPlayerStats(f) ==> "playerStats" !in r.value
  {
    if "version" in f && f["version"] == JStr(CurrentVersion) then None
    else
      var a := if IsV1(f) then FromV1(f) else f;
      var b := if "version" in a && a["version"] == JStr("2.0") then FromV2(a) else a;
      Some(b["version" := JStr(CurrentVersion)])
  }

  /** Migrating a migrated package again does nothing. */
  lemma MigrationSettles(f: map<string, Json>)
    ensures Migrated(f).Some? ==> Migrated(Migrated(f).value).None?
  {
  }

  /** A v1 package comes out of the chain with its game data stamped too, when that data is an object. */
  lemma V1ChainStampsGameData(f: map<string, Json>)
    requires IsV1(f) && !("version" in f && f["version"] == JStr(CurrentVersion))
    requires HasPlayerStats(f)
    ensures Migrated(f).Some?
    ensures "gameData" in Migrated(f).value
    ensures Member(Migrated(f).value["gameData"], "version") == Some(JStr(CurrentVersion))
  {
    V1NamesDiffer();
  }

  /** A save package object, rewritten in place by the migrations. */
  class SavePackage {
    var fields: map<string, Json>

    constructor(fields: map<string, Json>)
      ensures this.fields == fields
    {
      this.fields := fields;
    }
  }

  method MigrateFromV1(pkg: SavePackage) returns (r: SavePackage)
    modifies pkg
    ensures r == pkg && pkg.fields == FromV1(old(pkg.fields))
  {
    V1NamesDiffer();
    if HasPlayerStats(pkg.fields) {
      pkg.fields := pkg.fields["gameData" := V1GameData(pkg.fields, pkg.fields["playerStats"])];
      pkg.fields := pkg.fields - {"playerStats"};
    }
    pkg.fields := pkg.fields["version" := JStr("2.0")];
    return pkg;
  }

  method MigrateFromV2(pkg: SavePackage) returns (r: SavePackage)
    modifies pkg
    ensures r == pkg && pkg.fields == FromV2(old(pkg.fields))
  {
    if "gameData" in pkg.fields && pkg.fields["gameData"].JObj? && !TruthyMember(pkg.fields["gameData"], "version") {
      pkg.fields := pkg.fields["gameData" := JObj(pkg.fields["gameData"].fields["version" := JStr(CurrentVersion)])];
    }
    pkg.fields := pkg.fields["version" := JStr(CurrentVersion)];
    return pkg;
  }

  /** migrateSaveData: None when already current, otherwise the same package object, migrated. */
  method MigrateSaveData(pkg: SavePackage) returns (r: Option<SavePackage>)
    modifies pkg
    ensures Migrated(old(pkg.fields)).None? ==> r.None? && pkg.fields == old(pkg.fields)
    ensures Migrated(old(pkg.fields)).Some? ==> r == Some(pkg) && pkg.fields == Migrated(old(pkg.fields)).value
  {
    if "version" in pkg.fields && pkg.fields["version"] == JStr(CurrentVersion) {
      return None;
    }
    var p := pkg;
    if IsV1(p.fields) {
      p := MigrateFromV1(p);
    }
    if "version" in p.fields && p.fields["version"] == JStr("2.0") {
      p := MigrateFromV2(p);
    }
    p.fields := p.fields["version" := JStr(CurrentVersion)];
    return Some(p);
  }

  // ---------------------------------------------------------------------------
  // Compression marker
  // ---------------------------------------------------------------------------

  const CompressedPrefix: string := "COMPRESSED:"

  predicate StartsWith(s: string, prefix: string)
  {
    |prefix| <= |s| && s[..|prefix|] == prefix
  }

  /** isCompressed: a string carrying the compression marker. */
  predicate IsCompressed(data: Json)
    ensures IsCompressed(data) ==> data.JStr? && |data.s| >= |CompressedPrefix| && data.s == CompressedPrefix + data.s[|CompressedPrefix|..]
    ensures data.JStr? && |data.s| < |CompressedPrefix| ==> !IsCompressed(data)
  {
    data.JStr? && StartsWith(data.s, CompressedPrefix)
  }

  /** compressData, with the base64 encoder as a parameter (None when it refuses the text). */
  function CompressData(data: string, encode: string -> Option<string>): (r: string)
    ensures encode(data).Some? ==> IsCompressed(JStr(r)) && r[|CompressedPrefix|..] == encode(data).value
    ensures encode(data).None? ==> r == data
  {
    match encode(data)
    case Some(e) => CompressedPrefix + e
    case None => data
  }

  /** decompressData: unmarked data is returned as it is; marked data is decoded after the marker. */
  function DecompressData(data: string, decode: string -> Option<string>): (r: string)
    ensures !IsCompressed(JStr(data)) ==> r == data
    ensures IsCompressed(JStr(data)) && decode(data[|CompressedPrefix|..]).Some? ==> r == decode(data[|CompressedPrefix|..]).value
    ensures IsCompressed(JStr(data)) && decode(data[|CompressedPrefix|..]).None? ==> r == data
  {
    if IsCompressed(JStr(data)) then
      match decode(data[|CompressedPrefix|..])
      case Some(d) => d
      case None => data
    else data
  }

  /** With a codec that round-trips, decompressing what was compressed gives the text back. */
  lemma CompressRoundTrip(data: string, encode: string -> Option<string>, decode: string -> Option<string>)
    requires encode(data).Some? ==> decode(encode(data).value) == Some(data)
    requires encode(data).None? ==> !IsCompressed(JStr(data))
    ensures DecompressData(CompressData(data, encode), decode) == data
  {
    if encode(data).Some? {
      var r := CompressData(data, encode);
      assert r[|CompressedPrefix|..] == encode(data).value;
    }
  }

  // ---------------------------------------------------------------------------
  // Backups
  // ---------------------------------------------------------------------------

  /** Backups of a save are stored under the save's key, this marker and a timestamp. */
  function BackupPrefix(storageKey: string): string
  {
    storageKey + "_backup_"
  }

  /** The text after the last underscore (all of it when there is none). */
  function LastSegment(key: string): (r: string)
    ensures |r| <= |key| && r == key[|key| - |r|..]
    ensures forall i | 0 <= i < |r| :: r[i] != '_'
  {
    if key == [] || key[|key| - 1] == '_' then []
    else LastSegment(key[..|key| - 1]) + [key[|key| - 1]]
  }

  predicate IsDigit(c: char) { '0' <= c <= '9' }

  /** The longest run of digits at the front. */
  function LeadingDigits(s: string): (r: string)
    ensures |r| <= |s| && r == s[..|r|]
    ensures forall i | 0 <= i < |r| :: IsDigit(r[i])
  {
    if s == [] || !IsDigit(s[0]) then [] else [s[0]] + LeadingDigits(s[1..])
  }

  function DecimalValue(ds: string): nat
    requires forall i | 0 <= i < |ds| :: IsDigit(ds[i])
  {
    if ds == [] then 0
    else
      assert IsDigit(ds[|ds| - 1]);
      10 * DecimalValue(ds[..|ds| - 1]) + (ds[|ds| - 1] as int - '0' as int)
  }

  /**
   * The timestamp a backup key ends in, read from the leading decimal digits of its last
   * segment, or -1 where there are none. This is `parseInt` for the unsigned decimal stamps
   * the store writes; whitespace, signs and hexadecimal are not read.
   */
  function Stamp(key: string): int
  {
    var ds := LeadingDigits(LastSegment(key));
    if ds == [] then -1 else DecimalValue(ds)
  }

  /** The keys carrying the prefix, in storage order. */
  function WithPrefix(keys: seq<string>, prefix: string): seq<string>
  {
    if keys == [] then []
    else WithPrefix(keys[..|keys| - 1], prefix) + (if StartsWith(keys[|keys| - 1], prefix) then [keys[|keys| - 1]] else [])
  }

  lemma {:induction false} WithPrefixMembers(keys: seq<string>, prefix: string, k: string)
    ensures k in WithPrefix(keys, prefix) <==> k in keys && StartsWith(k, prefix)
  {
    if keys != [] {
      WithPrefixMembers(keys[..|keys| - 1], prefix, k);
      assert keys == keys[..|keys| - 1] + [keys[|keys| - 1]];
    }
  }

  /** Ordered by the given stamp, largest first. */
  predicate NewestFirst(s: seq<string>, stamp: string -> int)
  {
    forall i, j | 0 <= i < j < |s| :: stamp(s[i]) >= stamp(s[j])
  }

  /** Insert a key into a newest-first list, after every key strictly newer. */
  function InsertByStamp(k: string, s: seq<string>, stamp: string -> int): seq<string>
  {
    if s == [] || stamp(s[0]) <= stamp(k) then [k] + s
    else [s[0]] + InsertByStamp(k, s[1..], stamp)
  }

  lemma {:induction false} InsertPerm(k: string, s: seq<string>, stamp: string -> int)
    ensures multiset(InsertByStamp(k, s, stamp)) == multiset(s) + multiset{k}
    ensures forall x :: x in InsertByStamp(k, s, stamp) <==> x == k || x in s
  {
    if s != [] && stamp(s[0]) > stamp(k) {
      InsertPerm(k, s[1..], stamp);
      assert s == [s[0]] + s[1..];
    }
  }

  lemma {:induction false} InsertSorted(k: string, s: seq<string>, stamp: string -> int)
    requires NewestFirst(s, stamp)
    ensures NewestFirst(InsertByStamp(k, s, stamp), stamp)
  {
    if s != [] && stamp(s[0]) > stamp(k) {
      var tail := s[1..];
      assert NewestFirst(tail, stamp) by {
        forall i, j | 0 <= i < j < |tail| ensures stamp(tail[i]) >= stamp(tail[j]) {
          assert tail[i] == s[i + 1] && tail[j] == s[j + 1];
        }
      }
      InsertSorted(k, tail, stamp);
      InsertPerm(k, tail, stamp);
      var rest := InsertByStamp(k, tail, stamp);
      var r := [s[0]] + rest;
      forall i, j | 0 <= i < j < |r| ensures stamp(r[i]) >= stamp(r[j]) {
        if i == 0 {
          var x := rest[j - 1];
          assert x in rest;
          if x != k {
            var m :| 0 <= m < |tail| && tail[m] == x;
            assert s[m + 1] == x;
          }
        }
      }
    }
  }

  /** Sort newest first, keeping keys with equal stamps in their original order. */
  function SortByStamp(s: seq<string>, stamp: string -> int): (r: seq<string>)
    ensures NewestFirst(r, stamp)
    ensures multiset(r) == multiset(s)
  {
    if s == [] then []
    else
      assert s == [s[0]] + s[1..];
      InsertSorted(s[0], SortByStamp(s[1..], stamp), stamp);
      InsertPerm(s[0], SortByStamp(s[1..], stamp), stamp);
      InsertByStamp(s[0], SortByStamp(s[1..], stamp), stamp)
  }

  /** getBackupList: the backups of the save, most recent first. */
  function BackupList(keys: seq<string>, storageKey: string): seq<string>
  {
    SortByStamp(WithPrefix(keys, BackupPrefix(storageKey)), Stamp)
  }

  /** The backup list holds exactly the stored backup keys, as often as they are stored, newest first. */
  lemma BackupListFacts(keys: seq<string>, storageKey: string)
    ensures multiset(BackupList(keys, storageKey)) == multiset(WithPrefix(keys, BackupPrefix(storageKey)))
    ensures forall k :: k in BackupList(keys, storageKey) <==> k in keys && StartsWith(k, BackupPrefix(storageKey))
    ensures NewestFirst(BackupList(keys, storageKey), Stamp)
  {
    var r := BackupList(keys, storageKey);
    forall k ensures k in r <==> k in keys && StartsWith(k, BackupPrefix(storageKey)) {
      assert k in r <==> k in multiset(r);
      WithPrefixMembers(keys, BackupPrefix(storageKey), k);
    }
  }

  /** The keys of `s` that are not in `gone`, in order. */
  function Without(s: seq<string>, gone: seq<string>): seq<string>
  {
    if s == [] then []
    else Without(s[..|s| - 1], gone) + (if s[|s| - 1] in gone then [] else [s[|s| - 1]])
  }

  lemma {:induction false} WithoutMembers(s: seq<string>, gone: seq<string>, k: string)
    ensures k in Without(s, gone) <==> k in s && k !in gone
  {
    if s != [] {
      WithoutMembers(s[..|s| - 1], gone, k);
      assert s == s[..|s| - 1] + [s[|s| - 1]];
    }
  }

  lemma {:induction false} WithoutMore(s: seq<string>, gone: seq<string>, k: string)
    ensures Without(Without(s, gone), [k]) == Without(s, gone + [k])
  {
    if s != [] {
      WithoutMore(s[..|s| - 1], gone, k);
      var w := Without(s[..|s| - 1], gone);
      var tail := if s[|s| - 1] in gone then [] else [s[|s| - 1]];
      assert (w + tail)[..|w + tail| - |tail|] == w;
      if tail != [] {
        assert (w + tail)[..|w + tail| - 1] == w;
      } else {
        assert w + tail == w;
      }
    }
  }

  lemma WithoutStep(s: seq<string>, b: seq<string>, lo: nat, i: nat)
    requires lo <= i < |b|
    ensures Without(Without(s, b[lo..i]), [b[i]]) == Without(s, b[lo..i + 1])
  {
    WithoutMore(s, b[lo..i], b[i]);
    assert b[lo..i + 1] == b[lo..i] + [b[i]];
  }

  /** The storage keys left by cleanupOldBackups. */
  function Pruned(keys: seq<string>, storageKey: string, maxBackups: nat): seq<string>
  {
    var b := BackupList(keys, storageKey);
    if |b| > maxBackups then Without(keys, b[maxBackups..]) else keys
  }

  lemma {:induction false} DistinctCount(s: seq<string>)
    ensures |set k | k in s| <= |s|
  {
    if s != [] {
      var init := s[..|s| - 1];
      DistinctCount(init);
      assert s == init + [s[|s| - 1]];
      assert (set k | k in s) == (set k | k in init) + {s[|s| - 1]};
    }
  }

  /** Pruning only deletes backups: every other key stays. */
  lemma PrunedKeepsOthers(keys: seq<string>, storageKey: string, maxBackups: nat)
    ensures forall k | k in Pruned(keys, storageKey, maxBackups) :: k in keys
    ensures forall k | k in keys && !StartsWith(k, BackupPrefix(storageKey)) :: k in Pruned(keys, storageKey, maxBackups)
  {
    var b := BackupList(keys, storageKey);
    BackupListFacts(keys, storageKey);
    if |b| > maxBackups {
      forall k ensures k in Pruned(keys, storageKey, maxBackups) <==> k in keys && k !in b[maxBackups..] {
        WithoutMembers(keys, b[maxBackups..], k);
      }
    }
  }

  /** At most the configured number of backups remain after pruning. */
  lemma PrunedCount(keys: seq<string>, storageKey: string, maxBackups: nat)
    ensures |set k | k in Pruned(keys, storageKey, maxBackups) && StartsWith(k, BackupPrefix(storageKey))| <= maxBackups
  {
    var b := BackupList(keys, storageKey);
    var p := Pruned(keys, storageKey, maxBackups);
    BackupListFacts(keys, storageKey);
    var kept := set k | k in p && StartsWith(k, BackupPrefix(storageKey));
    var front := if |b| > maxBackups then b[..maxBackups] else b;
    var frontSet := set k | k in front;
    forall k | k in kept ensures k in frontSet {
      if |b| > maxBackups {
        WithoutMembers(keys, b[maxBackups..], k);
        assert k in b;
        var i :| 0 <= i < |b| && b[i] == k;
        if i < maxBackups {
          assert front[i] == k;
        }
      }
    }
    DistinctCount(front);
    assert frontSet == kept + (frontSet - kept);
  }

  /** Every backup left after pruning is at least as recent as every backup it deleted. */
  lemma PrunedRecent(keys: seq<string>, storageKey: string, maxBackups: nat)
    ensures forall k, d | k in Pruned(keys, storageKey, maxBackups) && StartsWith(k, BackupPrefix(storageKey))
                          && d in keys && d !in Pruned(keys, storageKey, maxBackups) :: Stamp(k) >= Stamp(d)
  {
    var b := BackupList(keys, storageKey);
    var p := Pruned(keys, storageKey, maxBackups);
    BackupListFacts(keys, storageKey);
    forall k, d | k in p && StartsWith(k, BackupPrefix(storageKey)) && d in keys && d !in p
      ensures Stamp(k) >= Stamp(d)
    {
      if |b| > maxBackups {
        var gone := b[maxBackups..];
        WithoutMembers(keys, gone, k);
        WithoutMembers(keys, gone, d);
        var j :| 0 <= j < |gone| && gone[j] == d;
        var i :| 0 <= i < |b| && b[i] == k;
        assert forall t | maxBackups <= t < |b| :: b[t] == gone[t - maxBackups];
        assert i < maxBackups;
        assert b[maxBackups + j] == d;
      }
    }
  }

  /** The save store: its key, how many backups it keeps, and the keys present in storage. */
  class StorageManager {
    const storageKey: string
    const maxBackups: nat
    var keys: seq<string>

    /** Options fall back with `||`: the key to "voiceFarmGame", the backup count to 5. */
    constructor(storageKeyOption: Option<string>, maxBackupsOption: Option<nat>, keys: seq<string>)
      ensures storageKey == if storageKeyOption.Some? && storageKeyOption.value != "" then storageKeyOption.value else "voiceFarmGame"
      ensures maxBackups == if maxBackupsOption.Some? && maxBackupsOption.value != 0 then maxBackupsOption.value else 5
      ensures this.keys == keys
    {
      storageKey := if storageKeyOption.Some? && storageKeyOption.value != "" then storageKeyOption.value else "voiceFarmGame";
      maxBackups := if maxBackupsOption.Some? && maxBackupsOption.value != 0 then maxBackupsOption.value else 5;
      this.keys := keys;
    }

    function GetBackupList(): (r: seq<string>)
      reads this
      ensures multiset(r) == multiset(WithPrefix(keys, BackupPrefix(storageKey)))
      ensures forall k :: k in r <==> k in keys && StartsWith(k, BackupPrefix(storageKey))
      ensures NewestFirst(r, Stamp)
    {
      BackupListFacts(keys, storageKey);
      BackupList(keys, storageKey)
    }

    /** cleanupOldBackups: delete every backup past the configured number, oldest last in the list. */
    method CleanupOldBackups()
      modifies this
      ensures keys == Pruned(old(keys), storageKey, maxBackups)
    {
      var backups := GetBackupList();
      if |backups| > maxBackups {
        keys := RemoveBackups(keys, backups, maxBackups);
      }
    }
  }

  /** The deleting loop of cleanupOldBackups: remove the keys of backups[lo..], one at a time. */
  method RemoveBackups(keys: seq<string>, backups: seq<string>, lo: nat) returns (left: seq<string>)
    requires lo <= |backups|
    ensures left == Without(keys, backups[lo..])
  {
    left := keys;
    var i := lo;
    assert backups[lo..lo] == [];
    WithoutNothing(keys);
    while i < |backups|
      invariant lo <= i <= |backups|
      invariant left == Without(keys, backups[lo..i])
    {
      WithoutStep(keys, backups, lo, i);
      left := Without(left, [backups[i]]);
      i := i + 1;
    }
    assert backups[lo..i] == backups[lo..];
  }

  lemma {:induction false} WithoutNothing(s: seq<string>)
    ensures Without(s, []) == s
  {
    if s != [] {
      WithoutNothing(s[..|s| - 1]);
      assert s == s[..|s| - 1] + [s[|s| - 1]];
    }
  }
}
