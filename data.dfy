/**
 * The display helpers over fetched records: the text of a field, the sorted
 * list of companies, grouping by company or project, and the local path and
 * `scheme://file/` URL used to open a record's directory in an editor.
 */
module DataUtils {
  import opened Wrappers
  import opened JsStrings
  import opened Feishu

  /** Field names and the default project key, as the table defines them. */
  const CompanyField: string := "公司"
  const ProjectField: string := "项目"
  const DefaultProject: string := "未分类"

  /** `String(o)` of a plain object. */
  const ObjectString: string := "[object Object]"

  // ---------------------------------------------------------------------------
  // JavaScript views of a field value
  // ---------------------------------------------------------------------------

  /** `record.fields[name]` */
  function FieldOf(r: Record, name: string): Option<FieldValue>
  {
    if name in r.fields then Some(r.fields[name]) else None
  }

  /** A field used as a condition: `undefined`, `""`, `0` and `false` are falsy. */
  predicate Truthy(v: Option<FieldValue>)
  {
    match v
    case None => false
    case Some(Str(s)) => s != ""
    case Some(Num(n)) => n != 0
    case Some(Bool(b)) => b
    case Some(_) => true
  }

  /** `String(item)` for an element of a list field. */
  function ItemJsString(item: ListItem): string
  {
    match item
    case ItemString(s) => s
    case ItemText(_) => ObjectString
  }

  /** `String(v)`; an array joins its elements' strings with ",". */
  function JsString(v: FieldValue): string
  {
    match v
    case Str(s) => s
    case Num(n) => IntToString(n)
    case Bool(b) => if b then "true" else "false"
    case Url(_, _) => ObjectString
    case Text(_) => ObjectString
    case List(items) => Join(seq(|items|, i requires 0 <= i < |items| => ItemJsString(items[i])), ",")
  }

  // ---------------------------------------------------------------------------
  // extractText
  // ---------------------------------------------------------------------------

  /** What a list element contributes to the extracted text. */
  function ItemDisplay(item: ListItem): string
  {
    match item
    case ItemString(s) => s
    case ItemText(t) => t
  }

  function ItemDisplays(items: seq<ListItem>): (texts: seq<string>)
    ensures |texts| == |items|
    ensures forall i :: 0 <= i < |items| ==> texts[i] == ItemDisplay(items[i])
  {
    seq(|items|, i requires 0 <= i < |items| => ItemDisplay(items[i]))
  }

  /** The texts of two lists placed one after the other are the two lists' texts in that order. */
  lemma ItemDisplaysAppend(a: seq<ListItem>, b: seq<ListItem>)
    ensures ItemDisplays(a + b) == ItemDisplays(a) + ItemDisplays(b)
  {
    assert forall i :: 0 <= i < |a + b| ==> ItemDisplays(a + b)[i] == (ItemDisplays(a) + ItemDisplays(b))[i];
  }

  /** The text shown for a field value. */
  function ExtractText(field: Option<FieldValue>): (r: string)
    ensures !Truthy(field) ==> r == ""
    ensures field.Some? && field.value.Str? ==> r == field.value.s
    ensures field.Some? && (field.value.Url? || field.value.Text?) ==> r == field.value.text
    ensures field.Some? && field.value.List? ==> r == Join(ItemDisplays(field.value.items), ", ")
    ensures Truthy(field) && (field.value.Num? || field.value.Bool?) ==> r == JsString(field.value)
  {
    if !Truthy(field) then ""
    else match field.value
      case List(items) => Join(ItemDisplays(items), ", ")
      case Url(_, text) => text
      case Text(text) => text
      case _ => JsString(field.value)
  }

  /** One more list element appends ", " and that element's text. */
  lemma ExtractTextListSnoc(items: seq<ListItem>, x: ListItem)
    requires |items| > 0
    ensures ExtractText(Some(List(items + [x]))) == ExtractText(Some(List(items))) + ", " + ItemDisplay(x)
  {
    ItemDisplaysAppend(items, [x]);
    assert ItemDisplays([x]) == [ItemDisplay(x)];
    JoinSnoc(ItemDisplays(items), ItemDisplay(x), ", ");
  }

  /** A list's text is its elements' texts plus two characters per separator. */
  lemma ExtractTextListLength(items: seq<ListItem>)
    requires |items| > 0
    ensures |ExtractText(Some(List(items)))| == TotalLength(ItemDisplays(items)) + 2 * (|items| - 1)
  {
    JoinLength(ItemDisplays(items), ", ");
  }

  // ---------------------------------------------------------------------------
  // getUniqueCompanies
  // ---------------------------------------------------------------------------

  /** The company a record names: `String(company)` when the field is truthy. */
  function CompanyOf(r: Record): Option<string>
  {
    var f := FieldOf(r, CompanyField);
    if Truthy(f) then Some(JsString(f.value)) else None
  }

  /** Every company named by some record. */
  function CompanyValues(records: seq<Record>): set<string>
  {
    set i | 0 <= i < |records| && CompanyOf(records[i]).Some? :: CompanyOf(records[i]).value
  }

  /**
   * The companies of `records`, each once, in ascending order: a `Set` filled
   * record by record, then sorted.
   */
  method GetUniqueCompanies(records: seq<Record>) returns (companies: seq<string>)
    ensures StrictlyAscending(companies)
    ensures forall c :: c in companies <==> c in CompanyValues(records)
  {
    var seen: seq<string> := [];
    for i := 0 to |records|
      invariant forall c :: c in seen <==> c in CompanyValues(records[..i])
    {
      assert CompanyValues(records[..i + 1]) ==
        CompanyValues(records[..i]) + (if CompanyOf(records[i]).Some? then {CompanyOf(records[i]).value} else {})
      by {
        assert forall j :: 0 <= j < i ==> records[..i + 1][j] == records[..i][j];
      }
      var company := FieldOf(records[i], CompanyField);
      if Truthy(company) {
        var name := JsString(company.value);
        if name !in seen {
          seen := seen + [name];
        }
      }
    }
    assert records[..|records|] == records;
    companies := SortDistinct(seen);
  }

  // ---------------------------------------------------------------------------
  // groupByCompany, groupByProject
  // ---------------------------------------------------------------------------

  /** `String(record.fields[field] || fallback)` */
  function GroupKey(r: Record, field: string, fallback: string): string
  {
    var f := FieldOf(r, field);
    if Truthy(f) then JsString(f.value) else fallback
  }

  function KeysOf(records: seq<Record>, field: string, fallback: string): (ks: seq<string>)
    ensures |ks| == |records|
    ensures forall i :: 0 <= i < |records| ==> ks[i] == GroupKey(records[i], field, fallback)
  {
    seq(|records|, i requires 0 <= i < |records| => GroupKey(records[i], field, fallback))
  }

  /** The distinct elements of `ks`, in the order each first appears. */
  function FirstOccurrences(ks: seq<string>): seq<string>
  {
    if |ks| == 0 then []
    else
      var d := FirstOccurrences(ks[..|ks| - 1]);
      if ks[|ks| - 1] in d then d else d + [ks[|ks| - 1]]
  }

  lemma {:induction false} FirstOccurrencesDistinct(ks: seq<string>)
    ensures Distinct(FirstOccurrences(ks))
    ensures forall k :: k in FirstOccurrences(ks) <==> k in ks
  {
    if |ks| > 0 {
      FirstOccurrencesDistinct(ks[..|ks| - 1]);
      assert ks == ks[..|ks| - 1] + [ks[|ks| - 1]];
    }
  }

  /** The records whose key is `key`, in input order. */
  function Select(records: seq<Record>, field: string, fallback: string, key: string): seq<Record>
  {
    if |records| == 0 then []
    else
      var rest := Select(records[..|records| - 1], field, fallback, key);
      if GroupKey(records[|records| - 1], field, fallback) == key then rest + [records[|records| - 1]] else rest
  }

  lemma {:induction false} SelectSound(records: seq<Record>, field: string, fallback: string, key: string)
    ensures forall r :: r in Select(records, field, fallback, key) ==> GroupKey(r, field, fallback) == key
  {
    if |records| > 0 {
      SelectSound(records[..|records| - 1], field, fallback, key);
    }
  }

  lemma {:induction false} SelectComplete(records: seq<Record>, field: string, fallback: string, i: int)
    requires 0 <= i < |records|
    ensures records[i] in Select(records, field, fallback, GroupKey(records[i], field, fallback))
  {
    if i < |records| - 1 {
      SelectComplete(records[..|records| - 1], field, fallback, i);
    }
  }

  lemma {:induction false} SelectAbsent(records: seq<Record>, field: string, fallback: string, key: string)
    requires key !in KeysOf(records, field, fallback)
    ensures Select(records, field, fallback, key) == []
  {
    if |records| > 0 {
      var init := records[..|records| - 1];
      assert forall k :: k in KeysOf(init, field, fallback) ==> k in KeysOf(records, field, fallback) by {
        forall k | k in KeysOf(init, field, fallback) ensures k in KeysOf(records, field, fallback) {
          var j :| 0 <= j < |init| && KeysOf(init, field, fallback)[j] == k;
          assert KeysOf(records, field, fallback)[j] == k;
        }
      }
      assert KeysOf(records, field, fallback)[|records| - 1] == GroupKey(records[|records| - 1], field, fallback);
      SelectAbsent(init, field, fallback, key);
    }
  }

  lemma KeysOfSnoc(records: seq<Record>, r: Record, field: string, fallback: string)
    ensures KeysOf(records + [r], field, fallback) == KeysOf(records, field, fallback) + [GroupKey(r, field, fallback)]
  {
  }

  /** One more record joins the group of its own key, at its end, and no other group. */
  lemma SelectSnoc(records: seq<Record>, r: Record, field: string, fallback: string)
    ensures forall key :: (Select(records + [r], field, fallback, key) ==
                           if GroupKey(r, field, fallback) == key then Select(records, field, fallback, key) + [r]
                           else Select(records, field, fallback, key))
  {
    assert (records + [r])[..|records|] == records;
  }

  /** A `Map` from key to records, with its keys in insertion order. */
  datatype Grouping = Grouping(keys: seq<string>, groups: map<string, seq<Record>>)

  /**
   * `g` is what grouping `records` by `field` yields: its keys are the records'
   * keys in first-appearance order, and each key's group holds exactly the
   * records with that key, in input order.
   */
  ghost predicate IsGroupingOf(g: Grouping, records: seq<Record>, field: string, fallback: string)
  {
    && g.keys == FirstOccurrences(KeysOf(records, field, fallback))
    && (forall k :: k in g.groups <==> k in g.keys)
    && (forall k :: k in g.groups ==> g.groups[k] == Select(records, field, fallback, k))
  }

  /**
   * One step of the grouping loop: a record whose key is new opens an empty
   * group and a key at the end, then the record is pushed onto its key's group.
   */
  lemma {:induction false} GroupStep(records: seq<Record>, r: Record, field: string, fallback: string,
                                     keys: seq<string>, groups: map<string, seq<Record>>)
    requires IsGroupingOf(Grouping(keys, groups), records, field, fallback)
    ensures var key := GroupKey(r, field, fallback);
      var keys' := if key in groups then keys else keys + [key];
      var withKey := if key in groups then groups else groups[key := []];
      IsGroupingOf(Grouping(keys', withKey[key := withKey[key] + [r]]), records + [r], field, fallback)
  {
    var key := GroupKey(r, field, fallback);
    KeysOfSnoc(records, r, field, fallback);
    SelectSnoc(records, r, field, fallback);
    assert (KeysOf(records, field, fallback) + [key])[..|records|] == KeysOf(records, field, fallback);
    if key !in groups {
      FirstOccurrencesDistinct(KeysOf(records, field, fallback));
      SelectAbsent(records, field, fallback, key);
    }
  }

  /**
   * Records grouped by `String(record.fields[field] || fallback)`, groups and
   * keys in the order records are met.
   */
  method GroupBy(records: seq<Record>, field: string, fallback: string) returns (g: Grouping)
    ensures IsGroupingOf(g, records, field, fallback)
  {
    var keys: seq<string> := [];
    var groups: map<string, seq<Record>> := map[];
    for i := 0 to |records|
      invariant IsGroupingOf(Grouping(keys, groups), records[..i], field, fallback)
    {
      var record := records[i];
      var key := GroupKey(record, field, fallback);
      assert records[..i + 1] == records[..i] + [record];
      GroupStep(records[..i], record, field, fallback, keys, groups);
      if key !in groups {
        keys := keys + [key];
        groups := groups[key := []];
      }
      groups := groups[key := groups[key] + [record]];
    }
    assert records[..|records|] == records;
    g := Grouping(keys, groups);
  }

  // Partition: every record in exactly one group, sizes adding up.

  /** Number of times `x` occurs in `s`. */
  function Occurrences(s: seq<string>, x: string): nat
  {
    if |s| == 0 then 0
    else Occurrences(s[..|s| - 1], x) + (if s[|s| - 1] == x then 1 else 0)
  }

  lemma {:induction false} OccurrencesOfDistinct(s: seq<string>, x: string)
    requires Distinct(s)
    ensures Occurrences(s, x) == if x in s then 1 else 0
  {
    if |s| > 0 {
      var init := s[..|s| - 1];
      assert s == init + [s[|s| - 1]];
      OccurrencesOfDistinct(init, x);
    }
  }

  /** Sum of the sizes of the groups of `keys`. */
  function TotalSize(keys: seq<string>, groups: map<string, seq<Record>>): nat
    requires forall k :: k in keys ==> k in groups
  {
    if |keys| == 0 then 0
    else TotalSize(keys[..|keys| - 1], groups) + |groups[keys[|keys| - 1]]|
  }

  /** Sum of `|Select(records, k)|` over `keys`. */
  function SelectedSize(records: seq<Record>, field: string, fallback: string, keys: seq<string>): nat
  {
    if |keys| == 0 then 0
    else
      SelectedSize(records, field, fallback, keys[..|keys| - 1])
      + |Select(records, field, fallback, keys[|keys| - 1])|
  }

  lemma {:induction false} SelectedSizeSnoc(records: seq<Record>, r: Record, field: string, fallback: string, keys: seq<string>)
    ensures SelectedSize(records + [r], field, fallback, keys)
         == SelectedSize(records, field, fallback, keys) + Occurrences(keys, GroupKey(r, field, fallback))
  {
    if |keys| > 0 {
      SelectedSizeSnoc(records, r, field, fallback, keys[..|keys| - 1]);
      assert (records + [r])[..|records|] == records;
    }
  }

  /** Summed over the distinct keys, the groups hold every record once. */
  lemma {:induction false} SelectedSizeOfAllKeys(records: seq<Record>, field: string, fallback: string)
    ensures SelectedSize(records, field, fallback, FirstOccurrences(KeysOf(records, field, fallback))) == |records|
  {
    if |records| > 0 {
      var init := records[..|records| - 1];
      var r := records[|records| - 1];
      var key := GroupKey(r, field, fallback);
      var ks := KeysOf(records, field, fallback);
      var d := FirstOccurrences(KeysOf(init, field, fallback));
      assert records == init + [r];
      assert ks == KeysOf(init, field, fallback) + [key];
      assert ks[..|ks| - 1] == KeysOf(init, field, fallback);
      SelectedSizeOfAllKeys(init, field, fallback);
      SelectedSizeSnoc(init, r, field, fallback, d);
      FirstOccurrencesDistinct(KeysOf(init, field, fallback));
      OccurrencesOfDistinct(d, key);
      if key !in d {
        assert (d + [key])[..|d|] == d;
        SelectAbsent(init, field, fallback, key);
      }
    }
  }

  lemma {:induction false} TotalSizeIsSelectedSize(g: Grouping, records: seq<Record>, field: string, fallback: string, keys: seq<string>)
    requires IsGroupingOf(g, records, field, fallback)
    requires forall k :: k in keys ==> k in g.groups
    ensures TotalSize(keys, g.groups) == SelectedSize(records, field, fallback, keys)
  {
    if |keys| > 0 {
      TotalSizeIsSelectedSize(g, records, field, fallback, keys[..|keys| - 1]);
    }
  }

  /**
   * A grouping partitions the records: keys are distinct, every record is in
   * the group of its own key, every group holds only records of its key, and
   * the group sizes add up to the number of records.
   */
  lemma GroupingIsPartition(g: Grouping, records: seq<Record>, field: string, fallback: string)
    requires IsGroupingOf(g, records, field, fallback)
    ensures Distinct(g.keys)
    ensures forall i :: 0 <= i < |records| ==>
      GroupKey(records[i], field, fallback) in g.groups && records[i] in g.groups[GroupKey(records[i], field, fallback)]
    ensures forall k, r :: k in g.groups && r in g.groups[k] ==> GroupKey(r, field, fallback) == k
    ensures TotalSize(g.keys, g.groups) == |records|
  {
    var ks := KeysOf(records, field, fallback);
    FirstOccurrencesDistinct(ks);
    forall i | 0 <= i < |records|
      ensures GroupKey(records[i], field, fallback) in g.groups
      ensures records[i] in g.groups[GroupKey(records[i], field, fallback)]
    {
      assert ks[i] in ks;
      SelectComplete(records, field, fallback, i);
    }
    forall k | k in g.groups
      ensures forall r :: r in g.groups[k] ==> GroupKey(r, field, fallback) == k
    {
      SelectSound(records, field, fallback, k);
    }
    TotalSizeIsSelectedSize(g, records, field, fallback, g.keys);
    SelectedSizeOfAllKeys(records, field, fallback);
  }

  /** Records grouped by company; a record without one goes under "". */
  method GroupByCompany(records: seq<Record>) returns (g: Grouping)
    ensures IsGroupingOf(g, records, CompanyField, "")
    ensures forall i :: 0 <= i < |records| && !Truthy(FieldOf(records[i], CompanyField)) ==>
      "" in g.groups && records[i] in g.groups[""]
    ensures TotalSize(g.keys, g.groups) == |records|
  {
    g := GroupBy(records, CompanyField, "");
    GroupingIsPartition(g, records, CompanyField, "");
  }

  /** Records grouped by project; a record without one goes under "未分类". */
  method GroupByProject(records: seq<Record>) returns (g: Grouping)
    ensures IsGroupingOf(g, records, ProjectField, DefaultProject)
    ensures forall i :: 0 <= i < |records| && !Truthy(FieldOf(records[i], ProjectField)) ==>
      DefaultProject in g.groups && records[i] in g.groups[DefaultProject]
    ensures TotalSize(g.keys, g.groups) == |records|
  {
    g := GroupBy(records, ProjectField, DefaultProject);
    GroupingIsPartition(g, records, ProjectField, DefaultProject);
  }

  // ---------------------------------------------------------------------------
  // Paths and app URLs
  // ---------------------------------------------------------------------------

  /**
   * `basePath` and `relativePath` with one "/" between them: none is added
   * when the base already ends with "/", and an empty base adds nothing.
   */
  function GetAbsolutePath(basePath: string, relativePath: string): (r: string)
    ensures basePath == "" ==> r == relativePath
    ensures EndsWith(r, relativePath)
    ensures basePath != "" ==>
      && |r| == |basePath| + (if EndsWith(basePath, "/") then 0 else 1) + |relativePath|
      && r[..|basePath|] == basePath
      && r[|r| - |relativePath| - 1] == '/'
  {
    if basePath == "" then relativePath
    else (if EndsWith(basePath, "/") then basePath else basePath + "/") + relativePath
  }

  /** The URL schemes of the editors the table knows by name. */
  const Protocols: map<string, string> := map[
    "Zed" := "zed",
    "WebStorm" := "webstorm",
    "Cursor" := "cursor",
    "VSCode" := "vscode",
    "Visual Studio Code" := "vscode",
    "IntelliJ" := "idea",
    "IntelliJ IDEA" := "idea",
    "PyCharm" := "pycharm",
    "GoLand" := "goland",
    "Sublime Text" := "subl"]

  /** `protocols[appName] || appName.toLowerCase()` */
  function GetAppProtocol(appName: string): (p: string)
    ensures appName in Protocols ==> p == Protocols[appName]
    ensures appName !in Protocols ==> p == ToLowerAscii(appName)
    ensures IsLowerAscii(p)
    ensures p == "" <==> appName == ""
    ensures ':' !in appName ==> ':' !in p
  {
    if appName in Protocols && Protocols[appName] != "" then Protocols[appName]
    else ToLowerAscii(appName)
  }

  /**
   * The properties every object literal inherits from `Object.prototype`; an
   * index into `protocols` with one of these names finds a function (or, for
   * `__proto__`, the prototype object) instead of `undefined`.
   */
  const InheritedNames: set<string> := {
    "constructor", "hasOwnProperty", "isPrototypeOf", "propertyIsEnumerable",
    "toLocaleString", "toString", "valueOf", "__proto__",
    "__defineGetter__", "__defineSetter__", "__lookupGetter__", "__lookupSetter__"}

  /** A JavaScript value that is a string, or an inherited non-string member. */
  datatype LookupValue = StringValue(s: string) | InheritedMember(name: string)

  /**
   * `protocols[appName] || appName.toLowerCase()` with the lookup as the
   * runtime does it, inherited members included. Every inherited member is
   * truthy, so it is returned as it is.
   */
  function AppProtocolAsWritten(appName: string): (v: LookupValue)
    ensures appName !in InheritedNames ==> v == StringValue(GetAppProtocol(appName))
  {
    if appName in Protocols then StringValue(Protocols[appName])
    else if appName in InheritedNames then InheritedMember(appName)
    else StringValue(ToLowerAscii(appName))
  }

  /**
   * For the editor name "toString" the lookup yields a function, not the
   * lower-case name, so the app URL starts with that function's source text;
   * `GetAppProtocol`, an own-property lookup, gives "tostring".
   */
  lemma InheritedNameEscapesFallback()
    ensures AppProtocolAsWritten("toString") == InheritedMember("toString")
    ensures AppProtocolAsWritten("toString") != StringValue(ToLowerAscii("toString"))
    ensures GetAppProtocol("toString") == "tostring"
  {
    assert "toString" !in Protocols;
    var lower := ToLowerAscii("toString");
    assert lower[2] == 's';
    assert lower == "tostring";
  }

  /** Aliases share a scheme. */
  lemma ProtocolAliases()
    ensures GetAppProtocol("VSCode") == GetAppProtocol("Visual Studio Code") == "vscode"
    ensures GetAppProtocol("IntelliJ") == GetAppProtocol("IntelliJ IDEA") == "idea"
    ensures GetAppProtocol("Sublime Text") == "subl"
  {
  }

  const FileInfix: string := "://file/"

  /** `${protocol}://file/${absolutePath}` */
  function GenerateAppUrl(appName: string, absolutePath: string): (url: string)
    ensures EndsWith(url, absolutePath)
  {
    GetAppProtocol(appName) + FileInfix + absolutePath
  }

  /** Index of the first `c` in `s`, if any. */
  function FirstIndex(s: string, c: char): (r: Option<nat>)
    ensures r.None? <==> c !in s
    ensures r.Some? ==> r.value < |s| && s[r.value] == c && c !in s[..r.value]
  {
    if |s| == 0 then None
    else if s[0] == c then Some(0)
    else
      match FirstIndex(s[1..], c)
      case None => None
      case Some(i) =>
        assert s[..i + 1] == [s[0]] + s[1..][..i];
        Some(i + 1)
  }

  /** Split an app URL back into its scheme and its path. */
  function ParseAppUrl(url: string): Option<(string, string)>
  {
    match FirstIndex(url, ':')
    case None => None
    case Some(i) =>
      if i + |FileInfix| <= |url| && url[i..i + |FileInfix|] == FileInfix
      then Some((url[..i], url[i + |FileInfix|..]))
      else None
  }

  /** A name without ':' gives a URL whose scheme and path can be read back. */
  lemma AppUrlRoundTrip(appName: string, absolutePath: string)
    requires ':' !in appName
    ensures ParseAppUrl(GenerateAppUrl(appName, absolutePath)) == Some((GetAppProtocol(appName), absolutePath))
  {
    var p := GetAppProtocol(appName);
    var url := GenerateAppUrl(appName, absolutePath);
    assert url[..|p|] == p;
    assert url[|p|] == ':';
    var i := FirstIndex(url, ':');
    assert i == Some(|p|);
    assert url[|p|..|p| + |FileInfix|] == FileInfix;
    assert url[|p| + |FileInfix|..] == absolutePath;
  }
}
