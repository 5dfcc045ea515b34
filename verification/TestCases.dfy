/** The repository's own test cases for key paths and snapshots, with the results they assert. */
module TestCases {
  import opened Wrappers
  import opened Json
  import opened CollectionNames
  import opened KeyPathSyntax
  import opened KeyPathAccess
  import opened Comparison
  import opened Updates
  import opened Databases
  import opened Snapshots

  // ---------------------------------------------------------------- reading a path

  /** A printed path may be written without a leading ".". */
  lemma ParsedAs(text: string, cs: Path)
    requires Printable(cs) && text != "" && text[0] != '$' && !IsSpace(text[0])
    requires PrintAll(cs) == if text[0] == '[' then text else "." + text
    ensures Parse(text) == Some(cs)
  {
    ScanPrinted(cs);
    PrintedEnd(cs);
    NormalizesTo(text, PrintAll(cs));
  }

  lemma NormalizesTo(text: string, printed: string)
    requires text != "" && text[0] != '$' && !IsSpace(text[0]) && !EndsBlank(printed)
    requires printed == if text[0] == '[' then text else "." + text
    ensures Normalize(text) == printed
  {
    assert text[|text| - 1] == printed[|printed| - 1];
    TrimNothing(text);
  }

  lemma PrintedKey(name: string, rest: Path)
    ensures PrintAll([Key(name)] + rest) == "." + name + PrintAll(rest)
  {
    PrintedFirst(Key(name), rest);
  }

  lemma PrintedIndex(n: nat, rest: Path)
    requires n < 10
    ensures PrintAll([Index(n)] + rest) == "[" + [DigitChar(n)] + "]" + PrintAll(rest)
  {
    Numerals(n);
    PrintedFirst(Index(n), rest);
  }

  lemma PrintedTeen(n: nat, rest: Path)
    requires n < 10
    ensures PrintAll([Index(10 + n)] + rest) == "[" + ("1" + [DigitChar(n)]) + "]" + PrintAll(rest)
  {
    Numerals(n);
    PrintedFirst(Index(10 + n), rest);
  }

  lemma PrintedNegative(n: nat, rest: Path)
    requires 0 < n < 10
    ensures PrintAll([Index(0 - n)] + rest) == "[" + ("-" + [DigitChar(n)]) + "]" + PrintAll(rest)
  {
    Numerals(n);
    PrintedFirst(Index(0 - n), rest);
  }

  lemma PrintedFirst(c: Component, rest: Path)
    ensures PrintAll([c] + rest) == PrintComponent(c) + PrintAll(rest)
  {
    assert ([c] + rest)[1..] == rest;
  }

  lemma Numerals(n: nat)
    requires n < 10
    ensures IntToString(n) == [DigitChar(n)] && IntToString(10 + n) == "1" + [DigitChar(n)]
    ensures n > 0 ==> IntToString(0 - n) == "-" + [DigitChar(n)]
  {
    assert NatToString(10 + n) == NatToString(1) + [DigitChar(n)];
  }

  lemma ParseFoo()
    ensures Parse("foo") == Parse("$.foo") == Some([Key("foo")])
  {
    PrintedKey("foo", []);
    assert [Key("foo")] + [] == [Key("foo")];
    ParsedAs("foo", [Key("foo")]);
    ShortSpelling("foo");
    assert "$." + "foo" == "$.foo";
  }

  lemma ParseDots()
    ensures Parse("a.b.c") == Some([Key("a"), Key("b"), Key("c")])
  {
    var cs := [Key("a"), Key("b"), Key("c")];
    PrintedKey("c", []);
    PrintedKey("b", [Key("c")]);
    PrintedKey("a", [Key("b"), Key("c")]);
    assert [Key("c")] + [] == [Key("c")] && [Key("b")] + [Key("c")] == [Key("b"), Key("c")];
    assert [Key("a")] + [Key("b"), Key("c")] == cs;
    ParsedAs("a.b.c", cs);
  }

  lemma ParseIndexes()
    ensures Parse("a[12].b[-7]") == Some([Key("a"), Index(12), Key("b"), Index(-7)])
  {
    var cs := [Key("a"), Index(12), Key("b"), Index(-7)];
    PrintIndexes();
    ParsedAs("a[12].b[-7]", cs);
  }

  lemma PrintIndexes()
    ensures PrintAll([Key("a"), Index(12), Key("b"), Index(-7)]) == ".a[12].b[-7]"
  {
    var most: Path := [Index(12), Key("b"), Index(-7)];
    PrintLastThree();
    PrintedFirst(Key("a"), most);
    assert [Key("a")] + most == [Key("a"), Index(12), Key("b"), Index(-7)];
  }

  lemma PrintLastThree()
    ensures PrintAll([Index(12), Key("b"), Index(-7)]) == "[12].b[-7]"
  {
    var end: Path := [Key("b"), Index(-7)];
    PrintLastTwo();
    PrintedFirst(Index(12), end);
    Numerals(2);
    assert PrintComponent(Index(12)) == "[12]" by { assert DigitChar(2) == '2'; }
    assert [Index(12)] + end == [Index(12), Key("b"), Index(-7)];
  }

  lemma PrintLastTwo()
    ensures PrintAll([Key("b"), Index(-7)]) == ".b[-7]"
  {
    var last: Path := [Index(-7)];
    assert last + [] == last && [Key("b")] + last == [Key("b"), Index(-7)];
    PrintedNegative(7, []);
    PrintedKey("b", last);
    assert DigitChar(7) == '7';
  }

  lemma ParseLeadingIndex()
    ensures Parse("[12].z") == Some([Index(12), Key("z")])
  {
    PrintLeadingIndex();
    ParsedAs("[12].z", [Index(12), Key("z")]);
  }

  lemma PrintLeadingIndex()
    ensures PrintAll([Index(12), Key("z")]) == "[12].z"
  {
    PrintedKey("z", []);
    PrintedTeen(2, [Key("z")]);
    assert [Key("z")] + [] == [Key("z")] && [Index(12)] + [Key("z")] == [Index(12), Key("z")];
    assert DigitChar(2) == '2';
  }

  lemma PrintElement(name: string, n: nat)
    requires n < 10
    ensures PrintAll([Key(name), Index(n)]) == "." + name + ("[" + [DigitChar(n)] + "]")
  {
    PrintedIndex(n, []);
    PrintedKey(name, [Index(n)]);
    assert [Index(n)] + [] == [Index(n)] && [Key(name)] + [Index(n)] == [Key(name), Index(n)];
    assert PrintAll([]) == "";
  }

  /** A key and a one-digit index below it. */
  lemma ParseElement(name: string, n: nat)
    requires WellFormed(Key(name)) && name[0] != '$' && !IsSpace(name[0]) && n < 10
    ensures Parse(name + "[" + [DigitChar(n)] + "]") == Some([Key(name), Index(n)])
  {
    PrintElement(name, n);
    var text := name + "[" + [DigitChar(n)] + "]";
    assert "." + name + ("[" + [DigitChar(n)] + "]") == "." + text && text[0] == name[0];
    ParsedAs(text, [Key(name), Index(n)]);
  }

  lemma ParseBelow(outer: string, name: string)
    requires WellFormed(Key(outer)) && outer[0] != '$' && !IsSpace(outer[0])
    requires WellFormed(Key(name)) && !EndsBlank(name)
    ensures Parse(outer + "." + name) == Some([Key(outer), Key(name)])
  {
    PrintTwo(outer, name);
    JoinedByDot(outer, name);
    ParsedAs(outer + "." + name, [Key(outer), Key(name)]);
  }

  lemma JoinedByDot(outer: string, name: string)
    requires outer != ""
    ensures var text := outer + "." + name; text[0] == outer[0] && "." + outer + "." + name == "." + text
  {
  }

  lemma PrintTwo(outer: string, name: string)
    ensures PrintAll([Key(outer), Key(name)]) == "." + outer + "." + name
  {
    PrintedFirst(Key(name), []);
    PrintedFirst(Key(outer), [Key(name)]);
    assert [Key(name)] + [] == [Key(name)] && [Key(outer)] + [Key(name)] == [Key(outer), Key(name)];
    assert PrintAll([]) == "";
  }

  // ---------------------------------------------------------------- paths that are refused

  lemma RefuseEmptyName()
    ensures Parse("") == Parse("$.") == Parse("x..y") == None
  {
    ShortSpelling("");
    RootAlone();
    NormalizesTo("x..y", ".x..y");
    TwoDots();
  }

  lemma TwoDots()
    ensures Scan(".x..y") == None
  {
    KeyMatched("x", "..y");
    assert "." + "x" + "..y" == ".x..y" && ".x..y"[2..] == "..y";
    EmptyName("y");
    assert ".." + "y" == "..y";
  }

  lemma EmptyName(rest: string)
    ensures Scan(".." + rest) == None
  {
    var s := ".." + rest;
    assert s[1..] == "." + rest && NameSpan(s[1..]) == 0 && s[1..1] == "";
    assert MatchHere(s) == Some(Token(Key(""), 1));
  }

  /** An opening bracket must be followed by digits and the closing one. */
  lemma RefuseOpenBracket()
    ensures Parse("[1z]") == Parse("[1") == None
  {
    TrimNothing("[1z]");
    TrimNothing("[1");
    OneDigit('1', "z]");
    OneDigit('1', "");
    assert "[1z]"[1..] == "1" + "z]" && "[1"[1..] == "1" + "";
    NothingMatches("1z]");
    NothingMatches("1");
  }

  lemma OneDigit(d: char, rest: string)
    requires IsDigit(d) && (rest != "" ==> !IsDigit(rest[0]) && rest[0] != ']')
    ensures MatchIndex([d] + rest, false) == None
  {
    assert ([d] + rest)[1..] == rest;
    assert DigitSpan(rest) == 0;
  }

  lemma {:induction false} NothingMatches(s: string)
    requires forall i | 0 <= i < |s| :: !IsDelimiter(s[i])
    ensures Match(s) == None
  {
    if s != "" {
      NothingMatches(s[1..]);
    }
  }

  /** The text after "." is read once more, and there is nothing to match in what is left. */
  lemma RefuseFraction()
    ensures Parse("[1.5]") == None
  {
    TrimNothing("[1.5]");
    FractionMatches();
    assert "[1.5]"[3..] == "5]";
    NothingMatches("5]");
  }

  lemma FractionMatches()
    ensures Match("[1.5]") == Some(Token(Key("5]"), 3))
  {
    OneDigit('1', ".5]");
    assert "1" + ".5]" == "1.5]";
    Skipped('[', "1.5]");
    Skipped('1', ".5]");
    KeyMatched("5]", "");
    assert "." + "5]" + "" == ".5]" && "[" + "1.5]" == "[1.5]";
  }

  /** Where nothing matches, the search goes on after the first character. */
  lemma Skipped(c: char, rest: string)
    requires MatchHere([c] + rest) == None
    ensures Match([c] + rest) == Match(rest)
  {
    assert ([c] + rest)[1..] == rest;
  }

  // ---------------------------------------------------------------- writing

  const BAR := Str("BAR")
  const ARR := [Num(0.0), Num(1.0), Num(2.0), Num(3.0), Arr([Num(4.0), Num(5.0)])]
  const OBJ := map["a" := Str("A"), "b" := Str("B"), "c" := Obj(map["d" := Str("D")])]

  /** The object of the test, with the given array and object in it. */
  function Holding(arr: seq<Json>, obj: map<string, Json>): Json { Obj(map["arr" := Arr(arr), "obj" := Obj(obj)]) }

  lemma ArrIsThere(arr: seq<Json>)
    ensures Read(Holding(ARR, OBJ), [Key("arr")]) == Some(Arr(ARR))
    ensures PutAt(Holding(ARR, OBJ), [Key("arr")], Arr(arr)) == Holding(arr, OBJ)
  {
    assert [Key("arr")][1..] == [];
    assert Holding(ARR, OBJ).fields["arr" := Arr(arr)] == Holding(arr, OBJ).fields;
  }

  lemma ObjIsThere(obj: map<string, Json>)
    ensures Read(Holding(ARR, OBJ), [Key("obj")]) == Some(Obj(OBJ))
    ensures PutAt(Holding(ARR, OBJ), [Key("obj")], Obj(obj)) == Holding(ARR, obj)
  {
    assert [Key("obj")][1..] == [];
    assert Holding(ARR, OBJ).fields["obj" := Obj(obj)] == Holding(ARR, obj).fields;
  }

  lemma SetKey()
    ensures Write(Holding(ARR, OBJ), [Key("obj"), Key("a")], Some(BAR)) == Written(true, Holding(ARR, OBJ["a" := BAR]))
  {
    ObjIsThere(OBJ["a" := BAR]);
    assert [Key("obj")] + [Key("a")] == [Key("obj"), Key("a")];
    WriteKey(Holding(ARR, OBJ), [Key("obj")], OBJ, "a", Some(BAR));
  }

  lemma SetElement()
    ensures Write(Holding(ARR, OBJ), [Key("arr"), Index(0)], Some(BAR)) == Written(true, Holding([BAR] + ARR[1..], OBJ))
  {
    ArrIsThere([BAR] + ARR[1..]);
    assert [Key("arr")] + [Index(0)] == [Key("arr"), Index(0)];
    WriteElement(Holding(ARR, OBJ), [Key("arr")], ARR, 0, BAR);
    assert Pad(ARR, 1)[0 := BAR] == [BAR] + ARR[1..];
  }

  /** A null goes in between. */
  lemma SetPastTheEnd()
    ensures Write(Holding(ARR, OBJ), [Key("arr"), Index(6)], Some(BAR)) == Written(true, Holding(ARR + [Null, BAR], OBJ))
  {
    ArrIsThere(ARR + [Null, BAR]);
    assert [Key("arr")] + [Index(6)] == [Key("arr"), Index(6)];
    WriteElement(Holding(ARR, OBJ), [Key("arr")], ARR, 6, BAR);
    assert Pad(ARR, 7)[6 := BAR] == ARR + [Null, BAR];
  }

  /** The elements after it move down. */
  lemma DeleteFirst()
    ensures Write(Holding(ARR, OBJ), [Key("arr"), Index(0)], None) == Written(true, Holding(ARR[1..], OBJ))
  {
    ArrIsThere(ARR[1..]);
    assert [Key("arr")] + [Index(0)] == [Key("arr"), Index(0)];
    WriteBelow(Holding(ARR, OBJ), [Key("arr")], [Index(0)], None);
    assert Splice(ARR, 0) == ARR[1..];
  }

  /** A key that is missing on the way gets an array, padded. */
  lemma SetThroughMissing()
    ensures Write(Holding(ARR, OBJ), [Key("obj"), Key("x"), Index(1)], Some(BAR))
            == Written(true, Holding(ARR, OBJ["x" := Arr([Null, BAR])]))
  {
    ObjIsThere(OBJ["x" := Arr([Null, BAR])]);
    WriteThroughMissingKey(Holding(ARR, OBJ), [Key("obj")], OBJ, "x", [Index(1)], Some(BAR));
    assert [Key("obj")] + [Key("x")] + [Index(1)] == [Key("obj"), Key("x"), Index(1)];
    WriteElement(Arr([]), [], [], 1, BAR);
    assert [] + [Index(1)] == [Index(1)];
    assert Pad([], 2)[1 := BAR] == [Null, BAR];
  }

  lemma WrongContainers()
    ensures Write(Holding(ARR, OBJ), [Key("arr"), Key("x")], Some(BAR)) == Written(false, Holding(ARR, OBJ))
    ensures Write(Holding(ARR, OBJ), [Index(12)], Some(BAR)) == Written(false, Holding(ARR, OBJ))
    ensures Write(Holding(ARR, OBJ), [Key("obj"), Key("a"), Index(0)], Some(BAR)).ok == false
  {
    ArrIsThere(ARR);
    WrongType(Holding(ARR, OBJ), [Key("arr")], Arr(ARR), Key("x"), [], Some(BAR));
    assert [Key("arr")] + [Key("x")] + [] == [Key("arr"), Key("x")];
    ObjIsThere(OBJ);
    ReadStep(Holding(ARR, OBJ), [Key("obj")], Key("a"));
    assert [Key("obj")] + [Key("a")] == [Key("obj"), Key("a")];
    WrongType(Holding(ARR, OBJ), [Key("obj"), Key("a")], Str("A"), Index(0), [], Some(BAR));
    assert [Key("obj"), Key("a")] + [Index(0)] + [] == [Key("obj"), Key("a"), Index(0)];
  }

  // ---------------------------------------------------------------- verifying a snapshot

  const NOSE: DocKey := ("red", "nose")

  /** The verdict on the one recorded document, with its one change. */
  ghost predicate Judged(v: Verdict, culprit: DocKey, recorded: Option<Json>, change: UpdateItem, current: Option<Json>,
                         load: BlobLoader)
  {
    IsVerdict(v, culprit, map[NOSE := recorded], [change],
              map["red" := if current.Some? then map["nose" := current.value] else map[]], load)
  }

  function Change(kind: Kind, properties: seq<(string, Json)>): UpdateItem {
    UpdateItem(kind, "red", "nose", if properties == [] then [] else [properties], [], [])
  }

  /** It passes exactly when the document checks out, and otherwise says why it does not. */
  lemma OneDocument(v: Verdict, culprit: DocKey, recorded: Option<Json>, change: UpdateItem, current: Option<Json>,
                    load: BlobLoader)
    requires Judged(v, culprit, recorded, change, current, load) && Spelled(change) == NOSE
    ensures v == Answer(PASSED) <==> ChecksOut(recorded, Some(change), current, load)
    ensures v != Answer(PASSED) ==> Explains(v, NOSE, recorded, Some(change), current, load)
  {
    var all: Recording := map[NOSE := recorded];
    var now: Collections := map["red" := if current.Some? then map["nose" := current.value] else map[]];
    assert change == [change][0] && !NamesUnrecorded([change], all);
    LastNamingCounts([change], 0, NOSE);
    assert Normal(NOSE) == NOSE && Lookup(now, NOSE) == current by { NotScoped(); }
    assert KeyPasses(NOSE, all, [change], now, load) <==> ChecksOut(recorded, Some(change), current, load);
  }

  lemma NotScoped()
    ensures NormalizeCollectionID("red") == "red"
  {
  }

  lemma FailedUpdate(v: Verdict, recorded: Option<Json>, change: UpdateItem, expected: Json, current: Option<Json>,
                     load: BlobLoader)
    requires v != Answer(PASSED) ==> Explains(v, NOSE, recorded, Some(change), current, load)
    requires v == Answer(PASSED) ==> ChecksOut(recorded, Some(change), current, load)
    requires Effect(recorded, change, load) == Ok(Some(expected)) && !DocsAgree(Some(expected), current)
    ensures match v
            case Answer(r) => Mismatches(r, NOSE, Some(expected), Some(change), current)
            case Throws(e) => Crashes(Some(expected), current)
  {
  }

  /** The update calls for a document, even without properties; there is none. */
  lemma WasNotCreated(v: Verdict, culprit: DocKey, load: BlobLoader)
    requires Judged(v, culprit, None, Change(Update, []), None, load)
    ensures v == Answer(Response(false, Some("Document nose in collection red" + " was not found"), None, None, None))
  {
    OneDocument(v, culprit, None, Change(Update, []), None, load);
    EmptyUpdate(None, load);
    FailedUpdate(v, None, Change(Update, []), EMPTY_DOCUMENT, None, load);
    SaysAbsent(v.response, Some(EMPTY_DOCUMENT), Change(Update, []), None, "Document nose in collection red" + " was not found");
  }

  lemma SaysAbsent(r: Response, expected: Option<Json>, change: UpdateItem, current: Option<Json>, whole: string)
    requires Mismatches(r, NOSE, expected, Some(change), current) && (expected.None? || current.None?)
    requires change.kind.Update? ==> expected.Some?
    requires whole == "Document nose in collection red" + AbsenceText(Some(change), current)
    ensures r == Response(false, Some(whole), None, None, None)
  {
    AbsenceReported(r, NOSE, expected, Some(change), current);
    AboutNose(AbsenceText(Some(change), current), whole);
  }

  lemma AboutNose(text: string, whole: string)
    requires whole == "Document nose in collection red" + text
    ensures "Document " + NOSE.1 + " in collection " + NOSE.0 + text == whole
  {
    assert "Document " + "nose" == "Document nose";
    assert "Document nose" + " in collection " == "Document nose in collection ";
    assert "Document nose in collection " + "red" == "Document nose in collection red";
  }

  lemma EmptyUpdate(doc: Option<Json>, load: BlobLoader)
    ensures Effect(doc, Change(Update, []), load) == Ok(Some(Start(doc)))
  {
    NothingListed(doc, Change(Update, []), load);
    assert Change(Update, []).(updatedProperties := [], removedProperties := [], updatedBlobs := []) == Change(Update, []);
  }

  lemma WasDeleted(v: Verdict, culprit: DocKey, doc: Json, load: BlobLoader)
    requires Judged(v, culprit, Some(doc), Change(Delete, []), None, load)
    ensures v == Answer(Response(true, None, None, None, None))
  {
    OneDocument(v, culprit, Some(doc), Change(Delete, []), None, load);
  }

  lemma WasNotDeleted(v: Verdict, culprit: DocKey, doc: Json, load: BlobLoader)
    requires Judged(v, culprit, Some(doc), Change(Delete, []), Some(doc), load)
    ensures v == Answer(Response(false, Some("Document nose in collection red" + " was not deleted"), None, None, None))
  {
    OneDocument(v, culprit, Some(doc), Change(Delete, []), Some(doc), load);
    SaysAbsent(v.response, None, Change(Delete, []), Some(doc), "Document nose in collection red" + " was not deleted");
  }

  function Santa(third: string): Json {
    Obj(map["name" := Str("Santa"), "reindeer" := Arr([Str("Dasher"), Str("Prancer"), Str(third)])])
  }

  const NEW_THIRD := Change(Update, [("reindeer[2]", Str("Rudolph"))])

  const WRONG_THIRD := "Document nose in collection red" + (" " + ("had unexpected properties at " + ".reindeer[2]"))

  lemma ThirdReplaced(load: BlobLoader)
    ensures Effect(Some(Santa("etc.")), NEW_THIRD, load) == Ok(Some(Santa("Rudolph")))
  {
    var none, path, v := Change(Update, []), "reindeer[2]", Str("Rudolph");
    var groups: seq<seq<(string, Json)>>, group: seq<(string, Json)> := [], [];
    assert group + [(path, v)] == [(path, v)];
    assert groups + [group + [(path, v)]] == [[(path, v)]];
    OneMoreProperty(Some(Santa("etc.")), none, groups, group, path, v, load);
    EmptyGroup(Some(Santa("etc.")), none, groups, load);
    EmptyUpdate(Some(Santa("etc.")), load);
    ParseThird();
    ThirdWritten();
    assert none.(updatedProperties := [[(path, v)]]) == NEW_THIRD && none.(updatedProperties := []) == none;
  }

  lemma ParseThird()
    ensures Parse("reindeer[2]") == Some([Key("reindeer"), Index(2)])
  {
    PrintThirdPath();
    assert ".reindeer[2]" == "." + "reindeer[2]";
    ParsedAs("reindeer[2]", [Key("reindeer"), Index(2)]);
  }

  lemma ThirdWritten()
    ensures Write(Santa("etc."), [Key("reindeer"), Index(2)], Some(Str("Rudolph"))) == Written(true, Santa("Rudolph"))
  {
    var elems := [Str("Dasher"), Str("Prancer"), Str("etc.")];
    assert [Key("reindeer")][1..] == [];
    WriteElement(Santa("etc."), [Key("reindeer")], elems, 2, Str("Rudolph"));
    assert [Key("reindeer")] + [Index(2)] == [Key("reindeer"), Index(2)];
    assert elems[2 := Str("Rudolph")] == [Str("Dasher"), Str("Prancer"), Str("Rudolph")];
    assert Santa("etc.").fields["reindeer" := Arr(elems[2 := Str("Rudolph")])] == Santa("Rudolph").fields;
  }

  lemma SantaForm(third: string)
    ensures DocToJson(Santa(third)) == Santa(third)
  {
    var elems := [Str("Dasher"), Str("Prancer"), Str(third)];
    assert forall i | 0 <= i < |elems| :: IsPlain(elems[i]);
    assert IsPlain(Arr(elems)) && IsPlain(Str("Santa"));
    DocToJsonIsPlain(Santa(third));
  }

  /** The third one is where a comparison can end, and it does not throw. */
  lemma ThirdDiffers(a: string, b: string, at: Path)
    requires a != b && Ends(Some(Santa(a)), Some(Santa(b)), at)
    ensures at == [Key("reindeer"), Index(2)] && !CanThrow(Some(Santa(a)), Some(Santa(b)), at)
    ensures Read(Santa(a), at) == Some(Str(a)) && Read(Santa(b), at) == Some(Str(b))
  {
    EndsInside(Santa(a), Santa(b), at);
    var e, f := Child(Santa(a), Key("reindeer")).value, Child(Santa(b), Key("reindeer")).value;
    assert at[0] == Key("reindeer");
    OnlyAtFirst(e, f, 2, at[1..]);
    assert at[1..][1..] == [] && at == [Key("reindeer")] + ([Index(2)] + []);
  }

  lemma WasModified(v: Verdict, culprit: DocKey, load: BlobLoader)
    requires Judged(v, culprit, Some(Santa("etc.")), NEW_THIRD, Some(Santa("Rudolph")), load)
    ensures v == Answer(Response(true, None, None, None, None))
  {
    OneDocument(v, culprit, Some(Santa("etc.")), NEW_THIRD, Some(Santa("Rudolph")), load);
    ThirdReplaced(load);
  }

  lemma WasNotModified(v: Verdict, culprit: DocKey, load: BlobLoader)
    requires Judged(v, culprit, Some(Santa("etc.")), NEW_THIRD, Some(Santa("etc.")), load)
    ensures v == Answer(Response(false, Some(WRONG_THIRD),
                                 Some(Str("etc.")), Some(Str("Rudolph")), Some(Santa("etc."))))
  {
    OneDocument(v, culprit, Some(Santa("etc.")), NEW_THIRD, Some(Santa("etc.")), load);
    ThirdReplaced(load);
    SantaForm("etc.");
    SantaForm("Rudolph");
    ThirdsDiffer();
    FailedUpdate(v, Some(Santa("etc.")), NEW_THIRD, Santa("Rudolph"), Some(Santa("etc.")), load);
    WrongThird(v, "Rudolph", "etc.");
  }

  lemma ThirdsDiffer()
    ensures Santa("Rudolph") != Santa("etc.")
  {
    assert |"Rudolph"| != |"etc."|;
    assert Santa("Rudolph").fields["reindeer"].elems[2] != Santa("etc.").fields["reindeer"].elems[2];
  }

  /** The verdict where another third one is expected. */
  lemma WrongThird(v: Verdict, a: string, b: string)
    requires a != b
    requires match v
             case Answer(r) => Mismatches(r, NOSE, Some(Santa(a)), Some(NEW_THIRD), Some(Santa(b)))
             case Throws(e) => Crashes(Some(Santa(a)), Some(Santa(b)))
    ensures v == Answer(Response(false, Some(WRONG_THIRD),
                                 Some(Str(b)), Some(Str(a)), Some(Santa(b))))
  {
    SantaForm(a);
    SantaForm(b);
    if v.Throws? {
      var at := ThrowPosition(Some(Santa(a)), Some(Santa(b)));
      ThirdDiffers(a, b, at);
      assert false;
    } else {
      var at := MismatchReported(v.response, NOSE, Santa(a), Some(NEW_THIRD), Santa(b));
      ThirdDiffers(a, b, at);
      PrintThird();
    }
  }

  lemma PrintThird()
    ensures "Document " + NOSE.1 + " in collection " + NOSE.0
            + (" " + ("had unexpected properties at " + ComponentsToString([Key("reindeer"), Index(2)])))
            == WRONG_THIRD
  {
    PrintThirdPath();
    AboutNose(" " + ("had unexpected properties at " + ".reindeer[2]"), WRONG_THIRD);
  }

  lemma PrintThirdPath()
    ensures ComponentsToString([Key("reindeer"), Index(2)]) == ".reindeer[2]"
  {
    PrintElement("reindeer", 2);
    assert DigitChar(2) == '2';
    assert ".reindeer" + "[2]" == ".reindeer[2]";
  }
}
