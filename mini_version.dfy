/**
 * The mini-program version audit request (alipay.open.mini.version.audit.apply):
 * a business payload that renders itself as text parameters plus files, the
 * MultiRender shape the client sends as multipart/form-data.
 */
module MiniVersion {
  import opened Wrappers
  import opened Foreign

  /** The text fields of ApplyVersionAuditBiz, in the order Params inserts them. */
  datatype TextField =
    | LicenseName | LicenseValidDate | AppVersion | AppName | AppEnglishName | AppSlogan
    | AppCategoryIds | AppDesc | ServicePhone | ServiceEmail | VersionDesc | Memo | RegionType
    | LicenseNo | MiniCategoryIds | TestAccount | TestPassword | BundleId

  /** The file fields of ApplyVersionAuditBiz, in the order MultipartParams inserts them. */
  datatype FileField =
    | FirstLicensePic | SecondLicensePic | ThirdLicensePic | FourthLicensePic | FifthLicensePic
    | OutDoorPic | AppLogo | FirstScreenShot | SecondScreenShot | ThirdScreenShot
    | FourthScreenShot | FifthScreenShot | FirstSpecialLicensePic | SecondSpecialLicensePic
    | ThirdSpecialLicensePic | TestFileName

  /** The parameter name each text field is sent under (its JSON tag). */
  function TextKey(f: TextField): string {
    match f
    case LicenseName => "license_name"
    case LicenseValidDate => "license_valid_date"
    case AppVersion => "app_version"
    case AppName => "app_name"
    case AppEnglishName => "app_english_name"
    case AppSlogan => "app_slogan"
    case AppCategoryIds => "app_category_ids"
    case AppDesc => "app_desc"
    case ServicePhone => "service_phone"
    case ServiceEmail => "service_email"
    case VersionDesc => "version_desc"
    case Memo => "memo"
    case RegionType => "region_type"
    case LicenseNo => "license_no"
    case MiniCategoryIds => "mini_category_ids"
    // The misspelling is the platform's own and is kept on the wire.
    case TestAccount => "test_accout"
    case TestPassword => "test_password"
    case BundleId => "bundle_id"
  }

  /** The key of the JSON-encoded region list. */
  const RegionInfoKey := "service_region_info"

  /** The form-file name each file field is sent under. */
  function FileKey(g: FileField): string {
    match g
    case FirstLicensePic => "first_license_pic"
    case SecondLicensePic => "second_license_pic"
    case ThirdLicensePic => "third_license_pic"
    case FourthLicensePic => "fourth_license_pic"
    case FifthLicensePic => "fifth_license_pic"
    case OutDoorPic => "out_door_pic"
    case AppLogo => "app_logo"
    case FirstScreenShot => "first_screen_shot"
    case SecondScreenShot => "second_screen_shot"
    case ThirdScreenShot => "third_screen_shot"
    case FourthScreenShot => "fourth_screen_shot"
    case FifthScreenShot => "fifth_screen_shot"
    case FirstSpecialLicensePic => "first_special_license_pic"
    case SecondSpecialLicensePic => "second_special_license_pic"
    case ThirdSpecialLicensePic => "third_special_license_pic"
    case TestFileName => "test_file_name"
  }

  /**
   * ApplyVersionAuditBiz. A nil *File is None; serviceRegionInfo is None for a
   * nil slice and Some of the slice's value otherwise (an empty, non-nil slice included).
   */
  datatype ApplyVersionAuditBiz = ApplyVersionAuditBiz(
    licenseName: string,
    firstLicensePic: Option<File>,
    secondLicensePic: Option<File>,
    thirdLicensePic: Option<File>,
    fourthLicensePic: Option<File>,
    fifthLicensePic: Option<File>,
    licenseValidDate: string,
    outDoorPic: Option<File>,
    appVersion: string,
    appName: string,
    appEnglishName: string,
    appSlogan: string,
    appLogo: Option<File>,
    appCategoryIds: string,
    appDesc: string,
    servicePhone: string,
    serviceEmail: string,
    versionDesc: string,
    memo: string,
    regionType: string,
    serviceRegionInfo: Option<GoValue>,
    firstScreenShot: Option<File>,
    secondScreenShot: Option<File>,
    thirdScreenShot: Option<File>,
    fourthScreenShot: Option<File>,
    fifthScreenShot: Option<File>,
    licenseNo: string,
    miniCategoryIds: string,
    firstSpecialLicensePic: Option<File>,
    secondSpecialLicensePic: Option<File>,
    thirdSpecialLicensePic: Option<File>,
    testAccount: string,
    testPassword: string,
    testFileName: Option<File>,
    bundleId: string)

  /** The value of a text field. */
  function TextOf(a: ApplyVersionAuditBiz, f: TextField): string {
    match f
    case LicenseName => a.licenseName
    case LicenseValidDate => a.licenseValidDate
    case AppVersion => a.appVersion
    case AppName => a.appName
    case AppEnglishName => a.appEnglishName
    case AppSlogan => a.appSlogan
    case AppCategoryIds => a.appCategoryIds
    case AppDesc => a.appDesc
    case ServicePhone => a.servicePhone
    case ServiceEmail => a.serviceEmail
    case VersionDesc => a.versionDesc
    case Memo => a.memo
    case RegionType => a.regionType
    case LicenseNo => a.licenseNo
    case MiniCategoryIds => a.miniCategoryIds
    case TestAccount => a.testAccount
    case TestPassword => a.testPassword
    case BundleId => a.bundleId
  }

  /** The value of a file field. */
  function FileOf(a: ApplyVersionAuditBiz, g: FileField): Option<File> {
    match g
    case FirstLicensePic => a.firstLicensePic
    case SecondLicensePic => a.secondLicensePic
    case ThirdLicensePic => a.thirdLicensePic
    case FourthLicensePic => a.fourthLicensePic
    case FifthLicensePic => a.fifthLicensePic
    case OutDoorPic => a.outDoorPic
    case AppLogo => a.appLogo
    case FirstScreenShot => a.firstScreenShot
    case SecondScreenShot => a.secondScreenShot
    case ThirdScreenShot => a.thirdScreenShot
    case FourthScreenShot => a.fourthScreenShot
    case FifthScreenShot => a.fifthScreenShot
    case FirstSpecialLicensePic => a.firstSpecialLicensePic
    case SecondSpecialLicensePic => a.secondSpecialLicensePic
    case ThirdSpecialLicensePic => a.thirdSpecialLicensePic
    case TestFileName => a.testFileName
  }

  /** The string json.Marshal yields for the region list; a marshalling error leaves it empty. */
  function RegionInfoJson(p: Primitives, regions: GoValue): (r: string)
    ensures p.jsonMarshal(regions).Failure? ==> r == ""
    ensures p.jsonMarshal(regions).Success? ==> r == p.jsonMarshal(regions).value
  {
    match p.jsonMarshal(regions)
    case Success(bs) => bs
    case Failure(_) => ""
  }

  /** No two text fields share a parameter name. */
  lemma TextKeysDistinct(f: TextField, f': TextField)
    ensures TextKey(f) == TextKey(f') ==> f == f'
  {
  }

  /** No two file fields share a form-file name. */
  lemma FileKeysDistinct(g: FileField, g': FileField)
    ensures FileKey(g) == FileKey(g') ==> g == g'
  {
  }

  /** The region list's key is not a text field's name. */
  lemma RegionInfoKeyIsNoTextKey(f: TextField)
    ensures TextKey(f) != RegionInfoKey
  {
  }

  /** The text parameters and the files of one payload never share a name. */
  lemma KeysDisjoint(f: TextField, g: FileField)
    ensures TextKey(f) != FileKey(g)
    ensures FileKey(g) != RegionInfoKey
  {
  }

  /** The text parameters a payload renders, as the table of its fields states them. */
  ghost predicate RendersText(a: ApplyVersionAuditBiz, p: Primitives, params: map<string, string>) {
    && (forall f :: TextKey(f) in params <==> TextOf(a, f) != "")
    && (forall f :: TextKey(f) in params ==> params[TextKey(f)] == TextOf(a, f))
    && (RegionInfoKey in params <==> a.serviceRegionInfo.Some?)
    && (a.serviceRegionInfo.Some? ==> params[RegionInfoKey] == RegionInfoJson(p, a.serviceRegionInfo.value))
    && (forall k :: k in params ==> k == RegionInfoKey || exists f :: TextKey(f) == k)
  }

  /** The files a payload renders, as the table of its fields states them. */
  ghost predicate RendersFiles(a: ApplyVersionAuditBiz, files: map<string, File>) {
    && (forall g :: FileKey(g) in files <==> FileOf(a, g).Some?)
    && (forall g :: FileKey(g) in files ==> files[FileKey(g)] == FileOf(a, g).value)
    && (forall k :: k in files ==> exists g :: FileKey(g) == k)
  }

  /** One `if a.X != "" { params[key] = a.X }` of Params. */
  function PutText(m: map<string, string>, key: string, value: string): map<string, string> {
    if value != "" then m[key := value] else m
  }

  /** The `if a.ServiceRegionInfo != nil` insert of Params, with the marshalling error dropped. */
  function PutRegions(m: map<string, string>, p: Primitives, regions: Option<GoValue>): map<string, string> {
    if regions.Some? then m[RegionInfoKey := RegionInfoJson(p, regions.value)] else m
  }

  /** One `if a.X != nil { params[key] = a.X }` of MultipartParams. */
  function PutFile(m: map<string, File>, key: string, value: Option<File>): map<string, File> {
    if value.Some? then m[key := value.value] else m
  }

  /** One insert of Params: a text field, or the region list. */
  datatype Slot = Text(field: TextField) | RegionInfo

  /** The position of each insert in Params. */
  function SlotOrder(s: Slot): (r: nat)
    ensures r < 19
  {
    match s
    case Text(LicenseName) => 0
    case Text(LicenseValidDate) => 1
    case Text(AppVersion) => 2
    case Text(AppName) => 3
    case Text(AppEnglishName) => 4
    case Text(AppSlogan) => 5
    case Text(AppCategoryIds) => 6
    case Text(AppDesc) => 7
    case Text(ServicePhone) => 8
    case Text(ServiceEmail) => 9
    case Text(VersionDesc) => 10
    case Text(Memo) => 11
    case Text(RegionType) => 12
    case RegionInfo => 13
    case Text(LicenseNo) => 14
    case Text(MiniCategoryIds) => 15
    case Text(TestAccount) => 16
    case Text(TestPassword) => 17
    case Text(BundleId) => 18
  }

  /** The insert Params makes at position n. */
  function SlotAt(n: nat): (s: Slot)
    requires n < 19
    ensures SlotOrder(s) == n
  {
    match n
    case 0 => Text(LicenseName)
    case 1 => Text(LicenseValidDate)
    case 2 => Text(AppVersion)
    case 3 => Text(AppName)
    case 4 => Text(AppEnglishName)
    case 5 => Text(AppSlogan)
    case 6 => Text(AppCategoryIds)
    case 7 => Text(AppDesc)
    case 8 => Text(ServicePhone)
    case 9 => Text(ServiceEmail)
    case 10 => Text(VersionDesc)
    case 11 => Text(Memo)
    case 12 => Text(RegionType)
    case 13 => RegionInfo
    case 14 => Text(LicenseNo)
    case 15 => Text(MiniCategoryIds)
    case 16 => Text(TestAccount)
    case 17 => Text(TestPassword)
    case _ => Text(BundleId)
  }

  /** The position of each insert in MultipartParams. */
  function FileOrder(g: FileField): (r: nat)
    ensures r < 16
  {
    match g
    case FirstLicensePic => 0
    case SecondLicensePic => 1
    case ThirdLicensePic => 2
    case FourthLicensePic => 3
    case FifthLicensePic => 4
    case OutDoorPic => 5
    case AppLogo => 6
    case FirstScreenShot => 7
    case SecondScreenShot => 8
    case ThirdScreenShot => 9
    case FourthScreenShot => 10
    case FifthScreenShot => 11
    case FirstSpecialLicensePic => 12
    case SecondSpecialLicensePic => 13
    case ThirdSpecialLicensePic => 14
    case TestFileName => 15
  }

  /** The insert MultipartParams makes at position n. */
  function FileAt(n: nat): (g: FileField)
    requires n < 16
    ensures FileOrder(g) == n
  {
    match n
    case 0 => FirstLicensePic
    case 1 => SecondLicensePic
    case 2 => ThirdLicensePic
    case 3 => FourthLicensePic
    case 4 => FifthLicensePic
    case 5 => OutDoorPic
    case 6 => AppLogo
    case 7 => FirstScreenShot
    case 8 => SecondScreenShot
    case 9 => ThirdScreenShot
    case 10 => FourthScreenShot
    case 11 => FifthScreenShot
    case 12 => FirstSpecialLicensePic
    case 13 => SecondSpecialLicensePic
    case 14 => ThirdSpecialLicensePic
    case _ => TestFileName
  }

  /** The map Params holds once it has made its first n inserts. */
  ghost function TextUpTo(a: ApplyVersionAuditBiz, p: Primitives, n: nat): map<string, string>
    requires n <= 19
    decreases n, a
  {
    if n == 0 then map[]
    else
      match SlotAt(n - 1)
      case Text(f) => PutText(TextUpTo(a, p, n - 1), TextKey(f), TextOf(a, f))
      case RegionInfo => PutRegions(TextUpTo(a, p, n - 1), p, a.serviceRegionInfo)
  }

  /** The map MultipartParams holds once it has made its first n inserts. */
  ghost function FilesUpTo(a: ApplyVersionAuditBiz, n: nat): map<string, File>
    requires n <= 16
    decreases n, a
  {
    if n == 0 then map[] else PutFile(FilesUpTo(a, n - 1), FileKey(FileAt(n - 1)), FileOf(a, FileAt(n - 1)))
  }

  /** The positions of the inserts are distinct. */
  lemma SlotOrderInjective(s: Slot, s': Slot)
    ensures SlotOrder(s) == SlotOrder(s') ==> s == s'
  {
  }

  /** The positions of the file inserts are distinct. */
  lemma FileOrderInjective(g: FileField, g': FileField)
    ensures FileOrder(g) == FileOrder(g') ==> g == g'
  {
  }

  /** What an insert puts in, or None when its condition fails. */
  function SlotValue(a: ApplyVersionAuditBiz, p: Primitives, s: Slot): Option<string> {
    match s
    case Text(f) => if TextOf(a, f) != "" then Some(TextOf(a, f)) else None
    case RegionInfo => if a.serviceRegionInfo.Some? then Some(RegionInfoJson(p, a.serviceRegionInfo.value)) else None
  }

  function SlotKey(s: Slot): string {
    match s
    case Text(f) => TextKey(f)
    case RegionInfo => RegionInfoKey
  }

  /** No two inserts of Params share a key. */
  lemma SlotKeysDistinct(s: Slot, s': Slot)
    ensures SlotKey(s) == SlotKey(s') ==> s == s'
  {
    match s
    case Text(f) =>
      RegionInfoKeyIsNoTextKey(f);
      if s'.Text? { TextKeysDistinct(f, s'.field); }
    case RegionInfo =>
      if s'.Text? { RegionInfoKeyIsNoTextKey(s'.field); }
  }

  /** After n inserts, the map holds the key of each of those inserts whose condition held, and no other insert's key. */
  lemma {:induction false} TextUpToKeys(a: ApplyVersionAuditBiz, p: Primitives, n: nat)
    requires n <= 19
    ensures forall t :: SlotKey(t) in TextUpTo(a, p, n) <==> SlotOrder(t) < n && SlotValue(a, p, t).Some?
  {
    if n > 0 {
      var s := SlotAt(n - 1);
      forall t ensures SlotKey(t) == SlotKey(s) ==> t == s {
        SlotKeysDistinct(t, s);
      }
      forall t ensures SlotOrder(t) == n - 1 ==> t == s {
        SlotOrderInjective(t, s);
      }
      TextUpToKeys(a, p, n - 1);
    }
  }

  /** After n inserts, every key of an insert whose condition held maps to that insert's value. */
  lemma {:induction false} TextUpToValues(a: ApplyVersionAuditBiz, p: Primitives, n: nat)
    requires n <= 19
    ensures forall t :: SlotKey(t) in TextUpTo(a, p, n) && SlotValue(a, p, t).Some? ==>
                          TextUpTo(a, p, n)[SlotKey(t)] == SlotValue(a, p, t).value
  {
    if n > 0 {
      var s := SlotAt(n - 1);
      forall t ensures SlotKey(t) == SlotKey(s) ==> t == s {
        SlotKeysDistinct(t, s);
      }
      TextUpToValues(a, p, n - 1);
    }
  }

  /** After n inserts, the map holds no key but those of the first n inserts. */
  lemma {:induction false} TextUpToOnly(a: ApplyVersionAuditBiz, p: Primitives, n: nat)
    requires n <= 19
    ensures forall k :: k in TextUpTo(a, p, n) ==> exists t :: SlotOrder(t) < n && SlotKey(t) == k
  {
    if n > 0 {
      var s := SlotAt(n - 1);
      assert SlotOrder(s) < n;
      TextUpToOnly(a, p, n - 1);
    }
  }

  /** After n file inserts, the map holds the key of each of those whose field is non-nil, and no other file key. */
  lemma {:induction false} FilesUpToKeys(a: ApplyVersionAuditBiz, n: nat)
    requires n <= 16
    ensures forall h :: FileKey(h) in FilesUpTo(a, n) <==> FileOrder(h) < n && FileOf(a, h).Some?
  {
    if n > 0 {
      var g := FileAt(n - 1);
      forall h ensures FileKey(h) == FileKey(g) ==> h == g {
        FileKeysDistinct(h, g);
      }
      forall h ensures FileOrder(h) == n - 1 ==> h == g {
        FileOrderInjective(h, g);
      }
      FilesUpToKeys(a, n - 1);
    }
  }

  /** After n file inserts, every key of a non-nil file field maps to that field's file. */
  lemma {:induction false} FilesUpToValues(a: ApplyVersionAuditBiz, n: nat)
    requires n <= 16
    ensures forall h :: FileKey(h) in FilesUpTo(a, n) && FileOf(a, h).Some? ==>
                          FilesUpTo(a, n)[FileKey(h)] == FileOf(a, h).value
  {
    if n > 0 {
      var g := FileAt(n - 1);
      forall h ensures FileKey(h) == FileKey(g) ==> h == g {
        FileKeysDistinct(h, g);
      }
      FilesUpToValues(a, n - 1);
    }
  }

  /** After n file inserts, the map holds no key but those of the first n file inserts. */
  lemma {:induction false} FilesUpToOnly(a: ApplyVersionAuditBiz, n: nat)
    requires n <= 16
    ensures forall k :: k in FilesUpTo(a, n) ==> exists h :: FileOrder(h) < n && FileKey(h) == k
  {
    if n > 0 {
      var g := FileAt(n - 1);
      assert FileOrder(g) < n;
      FilesUpToOnly(a, n - 1);
    }
  }

  /** After all inserts of Params, each text field is present iff non-empty, with its own value. */
  lemma TextFieldsRendered(a: ApplyVersionAuditBiz, p: Primitives)
    ensures forall f :: TextKey(f) in TextUpTo(a, p, 19) <==> TextOf(a, f) != ""
    ensures forall f :: TextKey(f) in TextUpTo(a, p, 19) ==> TextUpTo(a, p, 19)[TextKey(f)] == TextOf(a, f)
  {
    TextUpToKeys(a, p, 19);
    TextUpToValues(a, p, 19);
    forall f ensures SlotKey(Text(f)) == TextKey(f) {
    }
  }

  /** After n inserts, the key of insert t is present iff t is one of them and fired, with t's value. */
  lemma TextUpToAt(a: ApplyVersionAuditBiz, p: Primitives, n: nat, t: Slot)
    requires n <= 19
    ensures SlotKey(t) in TextUpTo(a, p, n) <==> SlotOrder(t) < n && SlotValue(a, p, t).Some?
    ensures SlotKey(t) in TextUpTo(a, p, n) && SlotValue(a, p, t).Some? ==> TextUpTo(a, p, n)[SlotKey(t)] == SlotValue(a, p, t).value
  {
    TextUpToKeys(a, p, n);
    TextUpToValues(a, p, n);
  }

  /** After all inserts of Params, the region list is present iff the slice is non-nil, JSON-encoded. */
  lemma RegionRendered(a: ApplyVersionAuditBiz, p: Primitives)
    ensures RegionInfoKey in TextUpTo(a, p, 19) <==> a.serviceRegionInfo.Some?
    ensures a.serviceRegionInfo.Some? ==>
              TextUpTo(a, p, 19)[RegionInfoKey] == RegionInfoJson(p, a.serviceRegionInfo.value)
  {
    TextUpToAt(a, p, 19, RegionInfo);
  }

  /** After all inserts of Params, no key but the text fields' and the region list's is present. */
  lemma OnlyTextKeysRendered(a: ApplyVersionAuditBiz, p: Primitives)
    ensures forall k :: k in TextUpTo(a, p, 19) ==> k == RegionInfoKey || exists f :: TextKey(f) == k
  {
    TextUpToOnly(a, p, 19);
    forall k | k in TextUpTo(a, p, 19) ensures k == RegionInfoKey || exists f :: TextKey(f) == k {
      var t :| SlotOrder(t) < 19 && SlotKey(t) == k;
      if t.Text? {
        assert TextKey(t.field) == k;
      }
    }
  }

  /** All inserts of Params together render the payload's text parameters. */
  lemma TextUpToRenders(a: ApplyVersionAuditBiz, p: Primitives)
    ensures RendersText(a, p, TextUpTo(a, p, 19))
  {
    TextFieldsRendered(a, p);
    RegionRendered(a, p);
    OnlyTextKeysRendered(a, p);
  }

  /** All inserts of MultipartParams together render the payload's files. */
  lemma FilesUpToRenders(a: ApplyVersionAuditBiz)
    ensures RendersFiles(a, FilesUpTo(a, 16))
  {
    FilesUpToKeys(a, 16);
    FilesUpToValues(a, 16);
    FilesUpToOnly(a, 16);
  }

  /** Text insert n of Params, applied to the map of the inserts before it. */
  lemma {:induction false} TextStep(a: ApplyVersionAuditBiz, p: Primitives, n: nat, f: TextField, value: string, before: map<string, string>)
    requires n < 19 && SlotAt(n) == Text(f)
    requires value == TextOf(a, f)
    requires before == TextUpTo(a, p, n)
    ensures PutText(before, TextKey(f), value) == TextUpTo(a, p, n + 1)
  {
  }

  /** The region-list insert of Params, applied to the map of the inserts before it. */
  lemma {:induction false} RegionStep(a: ApplyVersionAuditBiz, p: Primitives, before: map<string, string>)
    requires before == TextUpTo(a, p, 13)
    ensures PutRegions(before, p, a.serviceRegionInfo) == TextUpTo(a, p, 14)
  {
  }

  /** File insert n of MultipartParams, applied to the map of the inserts before it. */
  lemma {:induction false} FileStep(a: ApplyVersionAuditBiz, n: nat, g: FileField, value: Option<File>, before: map<string, File>)
    requires n < 16 && FileAt(n) == g
    requires value == FileOf(a, g)
    requires before == FilesUpTo(a, n)
    ensures PutFile(before, FileKey(g), value) == FilesUpTo(a, n + 1)
  {
  }

  /**
   * Params: each non-empty text field under its name, and the region list
   * JSON-encoded when the slice is non-nil. The receiver is a value and is not changed.
   */
  method Params(a: ApplyVersionAuditBiz, p: Primitives) returns (params: map<string, string>)
    ensures RendersText(a, p, params)
  {
    params := map[];
    ghost var before;
    before := params;
    params := PutText(params, TextKey(LicenseName), a.licenseName);
    TextStep(a, p, 0, LicenseName, a.licenseName, before);
    before := params;
    params := PutText(params, TextKey(LicenseValidDate), a.licenseValidDate);
    TextStep(a, p, 1, LicenseValidDate, a.licenseValidDate, before);
    before := params;
    params := PutText(params, TextKey(AppVersion), a.appVersion);
    TextStep(a, p, 2, AppVersion, a.appVersion, before);
    before := params;
    params := PutText(params, TextKey(AppName), a.appName);
    TextStep(a, p, 3, AppName, a.appName, before);
    before := params;
    params := PutText(params, TextKey(AppEnglishName), a.appEnglishName);
    TextStep(a, p, 4, AppEnglishName, a.appEnglishName, before);
    before := params;
    params := PutText(params, TextKey(AppSlogan), a.appSlogan);
    TextStep(a, p, 5, AppSlogan, a.appSlogan, before);
    before := params;
    params := PutText(params, TextKey(AppCategoryIds), a.appCategoryIds);
    TextStep(a, p, 6, AppCategoryIds, a.appCategoryIds, before);
    before := params;
    params := PutText(params, TextKey(AppDesc), a.appDesc);
    TextStep(a, p, 7, AppDesc, a.appDesc, before);
    before := params;
    params := PutText(params, TextKey(ServicePhone), a.servicePhone);
    TextStep(a, p, 8, ServicePhone, a.servicePhone, before);
    before := params;
    params := PutText(params, TextKey(ServiceEmail), a.serviceEmail);
    TextStep(a, p, 9, ServiceEmail, a.serviceEmail, before);
    before := params;
    params := PutText(params, TextKey(VersionDesc), a.versionDesc);
    TextStep(a, p, 10, VersionDesc, a.versionDesc, before);
    before := params;
    params := PutText(params, TextKey(Memo), a.memo);
    TextStep(a, p, 11, Memo, a.memo, before);
    before := params;
    params := PutText(params, TextKey(RegionType), a.regionType);
    TextStep(a, p, 12, RegionType, a.regionType, before);
    before := params;
    params := PutRegions(params, p, a.serviceRegionInfo);
    RegionStep(a, p, before);
    before := params;
    params := PutText(params, TextKey(LicenseNo), a.licenseNo);
    TextStep(a, p, 14, LicenseNo, a.licenseNo, before);
    before := params;
    params := PutText(params, TextKey(MiniCategoryIds), a.miniCategoryIds);
    TextStep(a, p, 15, MiniCategoryIds, a.miniCategoryIds, before);
    before := params;
    params := PutText(params, TextKey(TestAccount), a.testAccount);
    TextStep(a, p, 16, TestAccount, a.testAccount, before);
    before := params;
    params := PutText(params, TextKey(TestPassword), a.testPassword);
    TextStep(a, p, 17, TestPassword, a.testPassword, before);
    before := params;
    params := PutText(params, TextKey(BundleId), a.bundleId);
    TextStep(a, p, 18, BundleId, a.bundleId, before);
    TextUpToRenders(a, p);
  }

  /** MultipartParams: each non-nil file field under its form-file name. */
  method MultipartParams(a: ApplyVersionAuditBiz) returns (files: map<string, File>)
    ensures RendersFiles(a, files)
  {
    files := map[];
    ghost var before;
    before := files;
    files := PutFile(files, FileKey(FirstLicensePic), a.firstLicensePic);
    FileStep(a, 0, FirstLicensePic, a.firstLicensePic, before);
    before := files;
    files := PutFile(files, FileKey(SecondLicensePic), a.secondLicensePic);
    FileStep(a, 1, SecondLicensePic, a.secondLicensePic, before);
    before := files;
    files := PutFile(files, FileKey(ThirdLicensePic), a.thirdLicensePic);
    FileStep(a, 2, ThirdLicensePic, a.thirdLicensePic, before);
    before := files;
    files := PutFile(files, FileKey(FourthLicensePic), a.fourthLicensePic);
    FileStep(a, 3, FourthLicensePic, a.fourthLicensePic, before);
    before := files;
    files := PutFile(files, FileKey(FifthLicensePic), a.fifthLicensePic);
    FileStep(a, 4, FifthLicensePic, a.fifthLicensePic, before);
    before := files;
    files := PutFile(files, FileKey(OutDoorPic), a.outDoorPic);
    FileStep(a, 5, OutDoorPic, a.outDoorPic, before);
    before := files;
    files := PutFile(files, FileKey(AppLogo), a.appLogo);
    FileStep(a, 6, AppLogo, a.appLogo, before);
    before := files;
    files := PutFile(files, FileKey(FirstScreenShot), a.firstScreenShot);
    FileStep(a, 7, FirstScreenShot, a.firstScreenShot, before);
    before := files;
    files := PutFile(files, FileKey(SecondScreenShot), a.secondScreenShot);
    FileStep(a, 8, SecondScreenShot, a.secondScreenShot, before);
    before := files;
    files := PutFile(files, FileKey(ThirdScreenShot), a.thirdScreenShot);
    FileStep(a, 9, ThirdScreenShot, a.thirdScreenShot, before);
    before := files;
    files := PutFile(files, FileKey(FourthScreenShot), a.fourthScreenShot);
    FileStep(a, 10, FourthScreenShot, a.fourthScreenShot, before);
    before := files;
    files := PutFile(files, FileKey(FifthScreenShot), a.fifthScreenShot);
    FileStep(a, 11, FifthScreenShot, a.fifthScreenShot, before);
    before := files;
    files := PutFile(files, FileKey(FirstSpecialLicensePic), a.firstSpecialLicensePic);
    FileStep(a, 12, FirstSpecialLicensePic, a.firstSpecialLicensePic, before);
    before := files;
    files := PutFile(files, FileKey(SecondSpecialLicensePic), a.secondSpecialLicensePic);
    FileStep(a, 13, SecondSpecialLicensePic, a.secondSpecialLicensePic, before);
    before := files;
    files := PutFile(files, FileKey(ThirdSpecialLicensePic), a.thirdSpecialLicensePic);
    FileStep(a, 14, ThirdSpecialLicensePic, a.thirdSpecialLicensePic, before);
    before := files;
    files := PutFile(files, FileKey(TestFileName), a.testFileName);
    FileStep(a, 15, TestFileName, a.testFileName, before);
    FilesUpToRenders(a);
  }

  /** Every text parameter Params puts in carries a non-empty value, the region list's excepted. */
  lemma NoEmptyTextValue(a: ApplyVersionAuditBiz, p: Primitives, params: map<string, string>, k: string)
    requires RendersText(a, p, params)
    requires k in params && k != RegionInfoKey
    ensures params[k] != ""
  {
    var f :| TextKey(f) == k;
  }

  /** A payload's text parameters and its files never share a key. */
  lemma RenderedKeysDisjoint(a: ApplyVersionAuditBiz, p: Primitives, params: map<string, string>, files: map<string, File>)
    requires RendersText(a, p, params) && RendersFiles(a, files)
    ensures params.Keys !! files.Keys
  {
    forall k | k in params && k in files ensures false {
      var g :| FileKey(g) == k;
      KeysDisjoint(TextField.LicenseName, g);
      if k != RegionInfoKey {
        var f :| TextKey(f) == k;
        KeysDisjoint(f, g);
      }
    }
  }
}
