/**
  The JSONL upload of pages/Datasets.tsx: the text is trimmed and split into
  lines, each line is parsed (the parser is a parameter: `None` when it
  throws), lines whose value has no truthy `input` or `prompt` are dropped, and
  every survivor becomes a record with a fresh id, the fallback chains for
  `input` and `reference`, and then every key of the parsed object spread over
  them. The dataset name is derived from the file name.
*/
module Datasets {

  import opened Types
  import opened Text

  /** JavaScript truthiness; an absent key reads as `undefined`, which is falsy. */
  predicate Truthy(v: Option<Json>)
  {
    match v
    case None => false
    case Some(j) =>
      match j
      case JNull => false
      case JBool(b) => b
      case JNum(n) => n != 0.0
      case JStr(s) => s != ""
      case JArr(_) => true
      case JObj(_) => true
  }

  /** The keys of a parsed value: only an object has any. */
  function Fields(item: Json): map<string, Json>
  {
    if item.JObj? then item.fields else map[]
  }

  /** `item.key`. */
  function Get(item: Json, key: string): Option<Json>
  {
    if key in Fields(item) then Some(Fields(item)[key]) else None
  }

  /** `a || b`: the left operand when it is truthy, otherwise the right one whatever it is. */
  function Or(a: Option<Json>, b: Option<Json>): (r: Option<Json>)
    ensures Truthy(a) ==> r == a
    ensures !Truthy(a) ==> r == b
  {
    if Truthy(a) then a else b
  }

  /** The filter: `item !== null && (item.input || item.prompt)`. */
  predicate Keep(parsed: Option<Json>)
  {
    parsed.Some? && (Truthy(Get(parsed.value, "input")) || Truthy(Get(parsed.value, "prompt")))
  }

  /** `text.trim().split('\n')`. */
  function Lines(text: string): (r: seq<string>)
    ensures |r| >= 1
  {
    Split(Trim(text), '\n')
  }

  /** The parsed values of the lines that parse and pass the filter, in line order. */
  function Survivors(lines: seq<string>, parse: string -> Option<Json>): (r: seq<Json>)
    ensures |r| <= |lines|
    ensures forall j :: j in r ==> Keep(Some(j))
  {
    if |lines| == 0 then [] else Survivor(parse(lines[0])) + Survivors(lines[1..], parse)
  }

  /** What one line contributes: its value if it passes the filter, else nothing. */
  function Survivor(parsed: Option<Json>): (r: seq<Json>)
    ensures |r| <= 1
    ensures forall j :: j in r <==> Keep(parsed) && parsed == Some(j)
  {
    if Keep(parsed) then [parsed.value] else []
  }

  /** The filter keeps order: it distributes over concatenation. */
  lemma {:induction false} SurvivorsConcat(a: seq<string>, b: seq<string>, parse: string -> Option<Json>)
    ensures Survivors(a + b, parse) == Survivors(a, parse) + Survivors(b, parse)
  {
    if |a| == 0 {
      assert a + b == b;
    } else {
      var ab := a + b;
      assert ab[0] == a[0];
      assert ab[1..] == a[1..] + b;
      SurvivorsConcat(a[1..], b, parse);
    }
  }

  /** A value survives exactly when some line parses to it and it passes the filter. */
  lemma {:induction false} SurvivorsIff(lines: seq<string>, parse: string -> Option<Json>, j: Json)
    ensures j in Survivors(lines, parse) <==> Keep(Some(j)) && exists line :: line in lines && parse(line) == Some(j)
  {
    if |lines| > 0 {
      SurvivorsIff(lines[1..], parse, j);
      assert forall line :: line in lines <==> line == lines[0] || line in lines[1..];
    }
  }

  /** When no line passes, nothing survives. */
  lemma {:induction false} NoSurvivors(lines: seq<string>, parse: string -> Option<Json>)
    requires forall line :: line in lines ==> !Keep(parse(line))
    ensures Survivors(lines, parse) == []
  {
    if |lines| > 0 {
      NoSurvivors(lines[1..], parse);
    }
  }

  /** `item.input || item.prompt || item.question`. */
  function InputValue(item: Json): Option<Json>
  {
    Or(Get(item, "input"), Or(Get(item, "prompt"), Get(item, "question")))
  }

  /** `item.reference || item.output || item.completion || item.answer`. */
  function ReferenceValue(item: Json): Option<Json>
  {
    Or(Get(item, "reference"), Or(Get(item, "output"), Or(Get(item, "completion"), Get(item, "answer"))))
  }

  /** The generated fields before the spread; a field whose value is `undefined` is absent. */
  function Derived(item: Json, id: string): map<string, Json>
  {
    var withInput := if InputValue(item).Some? then map["id" := JStr(id), "input" := InputValue(item).value]
                     else map["id" := JStr(id)];
    if ReferenceValue(item).Some? then withInput["reference" := ReferenceValue(item).value] else withInput
  }

  /** `{ id: uuidv4(), input: …, reference: …, ...item }`: the parsed keys come last and win. */
  function Normalize(item: Json, id: string): (r: map<string, Json>)
    ensures forall k :: k in Fields(item) ==> k in r && r[k] == Fields(item)[k]
    ensures "id" in r && ("id" !in Fields(item) ==> r["id"] == JStr(id))
    ensures "input" !in Fields(item) && InputValue(item).Some? ==> "input" in r && r["input"] == InputValue(item).value
    ensures "reference" !in Fields(item) && ReferenceValue(item).Some? ==>
              "reference" in r && r["reference"] == ReferenceValue(item).value
    ensures forall k :: k in r ==> k in Fields(item) || k == "id" || k == "input" || k == "reference"
  {
    Derived(item, id) + Fields(item)
  }

  /**
    A kept record has an input, but the spread makes the fallback apply only
    when the `input` key is absent: the input is truthy exactly when the key is
    absent or its own value is truthy.
  */
  lemma NormalizedInput(item: Json, id: string)
    requires Keep(Some(item))
    ensures "input" in Normalize(item, id)
    ensures Truthy(Some(Normalize(item, id)["input"])) <==> !("input" in Fields(item)) || Truthy(Get(item, "input"))
  {
  }

  /** Without a truthy `input`, the record's input is its `prompt`, when that key is absent from the record. */
  lemma NormalizedPrompt(item: Json, id: string)
    requires "input" !in Fields(item) && Truthy(Get(item, "prompt"))
    ensures Normalize(item, id)["input"] == Fields(item)["prompt"]
  {
  }

  /** `s.endsWith(p)`. */
  predicate EndsWith(s: string, p: string)
  {
    |p| <= |s| && s[|s| - |p|..] == p
  }

  /**
    The name as written: `fileName.replace('.jsonl', '').replace('.json', '')`,
    each replacing the first occurrence wherever it is.
  */
  function DatasetName(fileName: string): string
  {
    ReplaceFirst(ReplaceFirst(fileName, ".jsonl", ""), ".json", "")
  }

  /** The evident intent: drop a trailing `.jsonl`, or else a trailing `.json`. */
  function StripExtension(fileName: string): (r: string)
    ensures EndsWith(fileName, ".jsonl") ==> r + ".jsonl" == fileName
    ensures !EndsWith(fileName, ".jsonl") && EndsWith(fileName, ".json") ==> r + ".json" == fileName
    ensures !EndsWith(fileName, ".jsonl") && !EndsWith(fileName, ".json") ==> r == fileName
  {
    if EndsWith(fileName, ".jsonl") then fileName[..|fileName| - 6]
    else if EndsWith(fileName, ".json") then fileName[..|fileName| - 5]
    else fileName
  }

  /** Every name that ends in either extension loses exactly that extension. */
  lemma StripExtensionOf(base: string)
    ensures StripExtension(base + ".jsonl") == base
    ensures StripExtension(base + ".json") == base
  {
    var s := base + ".jsonl";
    assert s[|s| - 6..] == ".jsonl";
    assert s[..|s| - 6] == base;
    var t := base + ".json";
    assert t[..|t| - 5] == base;
    assert t[|t| - 1] == 'n' && ".jsonl"[5] == 'l';
  }

  lemma FirstAt(s: string, p: string, i: nat)
    requires OccursAt(s, p, i)
    requires forall j :: 0 <= j < i ==> !OccursAt(s, p, j)
    ensures ReplaceFirst(s, p, "") == s[..i] + s[i + |p|..]
  {
  }

  /** A pattern that starts with a dot occurs only where `s` has a dot. */
  lemma NoDotBefore(s: string, p: string, i: nat, skip: int)
    requires |p| > 0 && p[0] == '.' && i <= |s|
    requires forall j :: 0 <= j < i && j != skip ==> s[j] != '.'
    requires 0 <= skip < i ==> !OccursAt(s, p, skip)
    ensures forall j :: 0 <= j < i ==> !OccursAt(s, p, j)
  {
    forall j | 0 <= j < i && j != skip
      ensures !OccursAt(s, p, j)
    {
      if j + |p| <= |s| {
        assert s[j..j + |p|][0] == s[j];
      }
    }
  }

  /** A text with no dot contains no pattern that starts with one. */
  lemma NoDotNoMatch(s: string, p: string)
    requires '.' !in s && |p| > 0 && p[0] == '.'
    ensures ReplaceFirst(s, p, "") == s
  {
    forall j | 0 <= j && j + |p| <= |s| ensures !OccursAt(s, p, j) {
      assert s[j..j + |p|][0] == s[j];
    }
  }

  /** `.jsonl` does not occur in a dot-free name followed by `.json`. */
  lemma JsonlAbsent(base: string)
    requires '.' !in base
    ensures ReplaceFirst(base + ".json", ".jsonl", "") == base + ".json"
  {
    var t := base + ".json";
    assert forall j :: 0 <= j < |base| ==> t[j] == base[j];
    NoDotBefore(t, ".jsonl", |base|, -1);
    assert forall j :: j >= |base| ==> !OccursAt(t, ".jsonl", j);
  }

  /** The first replacement meets the trailing `.jsonl` of a dot-free name. */
  lemma JsonlTrailing(base: string)
    requires '.' !in base
    ensures ReplaceFirst(base + ".jsonl", ".jsonl", "") == base
  {
    var s := base + ".jsonl";
    assert forall j :: 0 <= j < |base| ==> s[j] == base[j];
    NoDotBefore(s, ".jsonl", |base|, -1);
    assert s[|base|..|base| + 6] == ".jsonl";
    FirstAt(s, ".jsonl", |base|);
    assert s[..|base|] + s[|base| + 6..] == base;
  }

  /** For a name with no other dot, the code and the intent agree. */
  lemma DatasetNamePlain(base: string)
    requires '.' !in base
    ensures DatasetName(base + ".jsonl") == base
    ensures DatasetName(base + ".json") == base
  {
    JsonlTrailing(base);
    NoDotNoMatch(base, ".json");
    JsonlAbsent(base);
    DropsInnerJson(base, "");
    assert base + ".json" + "" == base + ".json";
  }

  /** The first replacement meets the trailing `.jsonl` when the one earlier dot is followed by no `l`. */
  lemma DropsTrailingJsonl(a: string, b: string)
    requires '.' !in a && '.' !in b && |b| > 0 && b[0] != 'l'
    ensures ReplaceFirst(a + ".json" + b + ".jsonl", ".jsonl", "") == a + ".json" + b
  {
    var t := a + ".json" + b;
    var s := t + ".jsonl";
    var k := |t|;
    assert forall j :: 0 <= j < k && j != |a| ==> s[j] != '.' by {
      forall j | 0 <= j < k && j != |a| ensures s[j] != '.' {
        assert s[j] == t[j];
        if j < |a| { assert t[j] == a[j]; }
        else if j < |a| + 5 { assert t[j] == ".json"[j - |a|]; }
        else { assert t[j] == b[j - |a| - 5]; }
      }
    }
    assert s[|a| + 5] == b[0];
    NoDotBefore(s, ".jsonl", k, |a|);
    assert s[k..k + 6] == ".jsonl";
    FirstAt(s, ".jsonl", k);
    assert s[..k] + s[k + 6..] == t;
  }

  /** The second replacement meets the inner `.json`. */
  lemma DropsInnerJson(a: string, b: string)
    requires '.' !in a
    ensures ReplaceFirst(a + ".json" + b, ".json", "") == a + b
  {
    var t := a + ".json" + b;
    assert forall j :: 0 <= j < |a| ==> t[j] == a[j];
    NoDotBefore(t, ".json", |a|, -1);
    assert t[|a|..|a| + 5] == ".json";
    FirstAt(t, ".json", |a|);
    assert t[..|a|] + t[|a| + 5..] == a + b;
  }

  /**
    As written, a `.json` inside the name is removed too: the name
    `a + ".json" + b + ".jsonl"` (no other dot, `b` not starting with `l`)
    becomes `a + b` instead of `a + ".json" + b`.
  */
  lemma DatasetNameDropsInnerJson(a: string, b: string)
    requires '.' !in a && '.' !in b && |b| > 0 && b[0] != 'l'
    ensures DatasetName(a + ".json" + b + ".jsonl") == a + b
    ensures StripExtension(a + ".json" + b + ".jsonl") == a + ".json" + b
    ensures a + b != a + ".json" + b
  {
    DropsTrailingJsonl(a, b);
    DropsInnerJson(a, b);
    StripExtensionOf(a + ".json" + b);
    assert |a + b| != |a + ".json" + b|;
  }

  /** The dataset that `handleFileUpload` adds to the store. */
  datatype UploadedDataset = UploadedDataset(id: string, name: string, createdAt: string, items: seq<map<string, Json>>)

  /**
    `reader.onload`: refused when no line survives, otherwise one record per
    survivor, in order, each with its own fresh id, under the name the two
    first-occurrence replacements leave.
  */
  function HandleFileUpload(fileName: string, text: string, parse: string -> Option<Json>,
                            freshId: nat -> string, datasetId: string, createdAt: string)
    : (r: Result<UploadedDataset>)
    ensures r.Err? <==> Survivors(Lines(text), parse) == []
    ensures r.Err? ==> r.message == "No valid JSON items found."
    ensures r.Ok? ==> r.value.id == datasetId && r.value.createdAt == createdAt
    ensures r.Ok? ==> r.value.name == DatasetName(fileName)
    ensures r.Ok? ==> |r.value.items| == |Survivors(Lines(text), parse)|
    ensures r.Ok? ==> forall i :: 0 <= i < |r.value.items| ==>
              r.value.items[i] == Normalize(Survivors(Lines(text), parse)[i], freshId(i))
  {
    var items := Survivors(Lines(text), parse);
    if |items| == 0 then Err("No valid JSON items found.")
    else
      Ok(UploadedDataset(datasetId, DatasetName(fileName), createdAt,
                         seq(|items|, i requires 0 <= i < |items| => Normalize(items[i], freshId(i)))))
  }
}
