/** The prompt template renderer of src/prompt-helpers/template-renderer.ts: `{{#if key}}`
    blocks, then `{{key}}` placeholders. */
module TemplateRenderer {
  import opened Wrappers
  import opened Seqs
  import opened Text
  import opened Decimal

  /** The values `renderTemplate` accepts: `undefined`, a string, a number or a boolean.
      Numbers are integers in this model. */
  datatype FlatValue = Undefined | Str(s: string) | Num(n: int) | Bool(b: bool)

  /** Any value of the data record: a flat value, `null`, or an object, array or function. */
  datatype Value = Flat(v: FlatValue) | Null | Composite

  /** One `[key, value]` of `Object.entries(data)`, in entry order. */
  datatype Entry = Entry(key: string, value: Value)
  datatype FlatEntry = FlatEntry(key: string, value: FlatValue)

  function EntryKey(e: Entry): string { e.key }

  /** The properties a plain object inherits from `Object.prototype` whose names a `\w+`
      key can spell; each holds a function, except `__proto__`, which holds the prototype. */
  const InheritedNames: set<string> := {
    "constructor", "hasOwnProperty", "isPrototypeOf", "propertyIsEnumerable",
    "toLocaleString", "toString", "valueOf", "__defineGetter__", "__defineSetter__",
    "__lookupGetter__", "__lookupSetter__", "__proto__"}

  /** `data[key]` on a plain object: the value of the first own entry with that key, else the
      inherited function or prototype object, else `undefined`. */
  function Lookup(data: seq<Entry>, key: string): (v: Value)
    ensures (forall i :: 0 <= i < |data| ==> data[i].key != key) ==>
              v == (if key in InheritedNames then Composite else Flat(Undefined))
    ensures (exists i :: 0 <= i < |data| && data[i].key == key) ==>
              exists i :: 0 <= i < |data| && data[i].key == key && v == data[i].value
  {
    match FindIndex(data, EntryKey, key)
    case None => if key in InheritedNames then Composite else Flat(Undefined)
    case Some(i) => data[i].value
  }

  /** JavaScript truthiness; `NaN` is not modelled. */
  predicate Truthy(v: Value) {
    match v
    case Flat(Undefined) => false
    case Flat(Str(s)) => s != ""
    case Flat(Num(n)) => n != 0
    case Flat(Bool(b)) => b
    case Null => false
    case Composite => true
  }

  /** `value !== undefined ? String(value) : ""` */
  function FlatText(v: FlatValue): string {
    match v
    case Undefined => ""
    case Str(s) => s
    case Num(n) => IntText(n)
    case Bool(b) => if b then "true" else "false"
  }

  function Placeholder(key: string): (p: string)
    ensures |p| == |key| + 4
  {
    "{{" + key + "}}"
  }

  // ------------------------------------------------------------ replace all

  /** No occurrence of `pat` starts in `s` before position `n`. */
  predicate NoneBefore(s: string, pat: string, n: nat) {
    forall i :: 0 <= i < n && i < |s| ==> !OccursAt(s, pat, i)
  }

  /** `pat` occurs in `s` at position `i`. */
  predicate OccursAt(s: string, pat: string, i: nat)
    requires i <= |s|
  {
    StartsWith(s[i..], pat)
  }

  /** Without an occurrence at the start, the remaining positions are those of the tail. */
  lemma NoneBeforeTail(s: string, pat: string, n: nat)
    requires s != [] && n > 0 && NoneBefore(s, pat, n)
    ensures !StartsWith(s, pat)
    ensures NoneBefore(s[1..], pat, n - 1)
  {
    assert s[0..] == s;
    assert !OccursAt(s, pat, 0);
    forall i | 0 <= i < n - 1 && i < |s[1..]| ensures !OccursAt(s[1..], pat, i) {
      assert s[1..][i..] == s[i + 1..];
      assert !OccursAt(s, pat, i + 1);
    }
  }

  /** `s.replace(new RegExp(pat, "g"), rep)` for a pattern without regular-expression syntax:
      the occurrences of `pat` are replaced from left to right, each search resuming after
      the previous match. */
  function ReplaceAll(s: string, pat: string, rep: string): (r: string)
    requires |pat| > 0
    ensures rep == pat ==> r == s
    ensures |rep| == |pat| ==> |r| == |s|
    decreases |s|
  {
    if |s| < |pat| then s
    else if StartsWith(s, pat) then
      assert s == s[..|pat|] + s[|pat|..];
      rep + ReplaceAll(s[|pat|..], pat, rep)
    else
      assert s == [s[0]] + s[1..];
      [s[0]] + ReplaceAll(s[1..], pat, rep)
  }

  /** A string with no occurrence of the pattern is left unchanged. */
  lemma {:induction false} ReplaceAbsent(s: string, pat: string, rep: string)
    requires |pat| > 0
    requires NoneBefore(s, pat, |s|)
    ensures ReplaceAll(s, pat, rep) == s
    decreases |s|
  {
    if |s| >= |pat| {
      assert s[0..] == s;
      assert !OccursAt(s, pat, 0);
      assert NoneBefore(s[1..], pat, |s[1..]|) by {
        forall i | 0 <= i < |s[1..]| ensures !OccursAt(s[1..], pat, i) {
          assert s[1..][i..] == s[i + 1..];
          assert !OccursAt(s, pat, i + 1);
        }
      }
      ReplaceAbsent(s[1..], pat, rep);
      assert s == [s[0]] + s[1..];
    }
  }

  /** The first occurrence is replaced, the text before it is kept, and replacing goes on
      after it. With `ReplaceAbsent` this determines `ReplaceAll` on every string. */
  lemma {:induction false} ReplaceFirst(a: string, t: string, pat: string, rep: string)
    requires |pat| > 0
    requires NoneBefore(a + pat + t, pat, |a|)
    ensures ReplaceAll(a + pat + t, pat, rep) == a + rep + ReplaceAll(t, pat, rep)
    decreases |a|
  {
    var s := a + pat + t;
    if a == [] {
      assert s == pat + t && s[|pat|..] == t;
      assert StartsWith(s, pat);
    } else {
      var tail := a[1..] + pat + t;
      assert s[1..] == tail;
      NoneBeforeTail(s, pat, |a|);
      assert ReplaceAll(s, pat, rep) == [a[0]] + ReplaceAll(tail, pat, rep);
      ReplaceFirst(a[1..], t, pat, rep);
      ConcatAssoc([a[0]], a[1..] + rep, ReplaceAll(t, pat, rep));
      assert [a[0]] + (a[1..] + rep) == a + rep by {
        assert a == [a[0]] + a[1..];
      }
    }
  }

  // ------------------------------------------------------------ renderTemplate

  /** `renderTemplate`: each entry's placeholder replaced in turn, in entry order. Entries
      whose text is their own placeholder change nothing, and entries whose text is as long
      as their placeholder keep the template's length. */
  function SubstituteAll(template: string, data: seq<FlatEntry>): (r: string)
    ensures (forall i :: 0 <= i < |data| ==> FlatText(data[i].value) == Placeholder(data[i].key)) ==> r == template
    ensures (forall i :: 0 <= i < |data| ==> |FlatText(data[i].value)| == |Placeholder(data[i].key)|) ==> |r| == |template|
    decreases |data|
  {
    if data == [] then template
    else
      var last := data[|data| - 1];
      ReplaceAll(SubstituteAll(template, data[..|data| - 1]), Placeholder(last.key), FlatText(last.value))
  }

  /** A template containing no placeholder of any supplied key is returned unchanged. */
  lemma {:induction false} SubstituteUnchanged(template: string, data: seq<FlatEntry>)
    requires forall i :: 0 <= i < |data| ==> NoneBefore(template, Placeholder(data[i].key), |template|)
    ensures SubstituteAll(template, data) == template
    decreases |data|
  {
    if data != [] {
      var last := data[|data| - 1];
      SubstituteUnchanged(template, data[..|data| - 1]);
      ReplaceAbsent(template, Placeholder(last.key), FlatText(last.value));
    }
  }

  /** With a single key, every placeholder of it up to the first is replaced and the text
      before it is kept. */
  lemma SubstituteOneKey(a: string, t: string, e: FlatEntry)
    requires NoneBefore(a + Placeholder(e.key) + t, Placeholder(e.key), |a|)
    ensures SubstituteAll(a + Placeholder(e.key) + t, [e])
            == a + FlatText(e.value) + SubstituteAll(t, [e])
  {
    assert [e][..0] == [];
    ReplaceFirst(a, t, Placeholder(e.key), FlatText(e.value));
  }

  /** One more entry substitutes its placeholder in what the earlier entries left. */
  lemma SubstituteStep(template: string, data: seq<FlatEntry>, i: nat)
    requires i < |data|
    ensures SubstituteAll(template, data[..i + 1])
            == ReplaceAll(SubstituteAll(template, data[..i]), Placeholder(data[i].key), FlatText(data[i].value))
  {
    var prefix := data[..i + 1];
    assert prefix[..|prefix| - 1] == data[..i];
    assert prefix[|prefix| - 1] == data[i];
  }

  method RenderTemplate(template: string, data: seq<FlatEntry>) returns (result: string)
    ensures result == SubstituteAll(template, data)
  {
    result := template;
    for i := 0 to |data|
      invariant result == SubstituteAll(template, data[..i])
    {
      var placeholder := Placeholder(data[i].key);
      var replacement := FlatText(data[i].value);
      SubstituteStep(template, data, i);
      result := ReplaceAll(result, placeholder, replacement);
    }
    assert data[..|data|] == data;
  }

  // ------------------------------------------------------------ renderConditional

  const IfOpen: string := "{{#if"
  const IfClose: string := "{{/if}}"

  /** `\w` */
  predicate IsWordChar(c: char) {
    ('a' <= c <= 'z') || ('A' <= c <= 'Z') || ('0' <= c <= '9') || c == '_'
  }

  /** The length of the longest prefix of `s` whose characters satisfy `p`. */
  function Span(s: string, p: char -> bool): (n: nat)
    ensures n <= |s|
    ensures forall i :: 0 <= i < n ==> p(s[i])
    ensures n < |s| ==> !p(s[n])
  {
    if s == [] || !p(s[0]) then 0 else 1 + Span(s[1..], p)
  }

  /** `s.indexOf(pat)`, with `None` for `-1`. */
  function FirstOccurrence(s: string, pat: string): (r: Option<nat>)
    ensures r.None? ==> NoneBefore(s, pat, |s|)
    ensures r.Some? ==> r.value + |pat| <= |s| && StartsWith(s[r.value..], pat) && NoneBefore(s, pat, r.value)
    decreases |s|
  {
    if StartsWith(s, pat) then
      assert s[0..] == s;
      Some(0)
    else if s == [] then None
    else
      assert s[0..] == s;
      assert !OccursAt(s, pat, 0);
      assert forall i :: 0 < i < |s| ==> s[1..][i - 1..] == s[i..];
      assert forall i :: 0 < i < |s| ==> OccursAt(s, pat, i) == OccursAt(s[1..], pat, i - 1);
      match FirstOccurrence(s[1..], pat)
      case None => None
      case Some(k) => Some(k + 1)
  }

  /** A match of `{{#if\s+(\w+)}}`: the key and the position right after the tag. */
  datatype OpenTag = OpenTag(key: string, end: nat)

  /** The opening tag at the beginning of `s`, if there is one. */
  function MatchOpenTag(s: string): (t: Option<OpenTag>)
    ensures t.Some? ==> 0 < t.value.end <= |s|
  {
    if !StartsWith(s, IfOpen) then None
    else
      var spaces := Span(s[|IfOpen|..], IsSpace);
      var keyStart := |IfOpen| + spaces;
      var keyLength := Span(s[keyStart..], IsWordChar);
      var keyEnd := keyStart + keyLength;
      if spaces == 0 || keyLength == 0 || !StartsWith(s[keyEnd..], "}}") then None
      else Some(OpenTag(s[keyStart..keyEnd], keyEnd + 2))
  }

  /** A match of `{{#if\s+(\w+)}}([\s\S]*?){{/if}}`: the key, the content and the length of
      the whole block. */
  datatype IfBlock = IfBlock(key: string, content: string, length: nat)

  /** The block starting at the beginning of `s`, if there is one; the content ends at the
      first `{{/if}}` after the opening tag. */
  function MatchIf(s: string): (m: Option<IfBlock>)
    ensures m.Some? ==> 0 < m.value.length <= |s| && |m.value.content| < m.value.length
  {
    var tag := MatchOpenTag(s);
    if tag.None? then None else CloseBlock(s, tag.value)
  }

  /** The block opened by `tag`, closed by the first `{{/if}}` after it. */
  function CloseBlock(s: string, tag: OpenTag): (m: Option<IfBlock>)
    requires 0 < tag.end <= |s|
    ensures m.Some? ==> 0 < m.value.length <= |s| && |m.value.content| < m.value.length
  {
    match FirstOccurrence(s[tag.end..], IfClose)
    case None => None
    case Some(p) => Some(IfBlock(tag.key, s[tag.end..tag.end + p], tag.end + p + |IfClose|))
  }

  /** `renderConditional`: every block is replaced by its content when the key's value is
      truthy and removed otherwise; text outside blocks is kept, and the search resumes after
      each block. The result is never longer than the template. */
  function RenderConditional(s: string, data: seq<Entry>): (r: string)
    ensures |r| <= |s|
    decreases |s|
  {
    if s == [] then []
    else
      match MatchIf(s)
      case Some(m) =>
        (if Truthy(Lookup(data, m.key)) then m.content else "") + RenderConditional(s[m.length..], data)
      case None => [s[0]] + RenderConditional(s[1..], data)
  }

  /** Where no `{{#if` starts, the character is copied. */
  lemma ConditionalPlainStep(s: string, data: seq<Entry>)
    requires s != [] && !StartsWith(s, IfOpen)
    ensures RenderConditional(s, data) == [s[0]] + RenderConditional(s[1..], data)
  {
    assert MatchOpenTag(s) == None;
    var m := MatchIf(s);
    assert m == None;
  }

  /** Where a block starts, its content or nothing is emitted, then scanning resumes after it. */
  lemma ConditionalBlockStep(s: string, data: seq<Entry>, m: IfBlock)
    requires MatchIf(s) == Some(m)
    ensures RenderConditional(s, data)
            == (if Truthy(Lookup(data, m.key)) then m.content else "") + RenderConditional(s[m.length..], data)
  {
  }

  /** A template without `{{#if` is left unchanged. */
  lemma {:induction false} ConditionalAbsent(s: string, data: seq<Entry>)
    requires NoneBefore(s, IfOpen, |s|)
    ensures RenderConditional(s, data) == s
    decreases |s|
  {
    if s != [] {
      NoneBeforeTail(s, IfOpen, |s|);
      ConditionalPlainStep(s, data);
      ConditionalAbsent(s[1..], data);
      assert [s[0]] + s[1..] == s;
    }
  }

  /** Text in which no `{{#if` starts is copied unchanged. */
  lemma {:induction false} ConditionalPrefix(a: string, t: string, data: seq<Entry>)
    requires NoneBefore(a + t, IfOpen, |a|)
    ensures RenderConditional(a + t, data) == a + RenderConditional(t, data)
    decreases |a|
  {
    if a == [] {
      assert a + t == t;
    } else {
      var s := a + t;
      var tail := a[1..] + t;
      assert s[1..] == tail;
      NoneBeforeTail(s, IfOpen, |a|);
      ConditionalPlainStep(s, data);
      ConditionalPrefix(a[1..], t, data);
      assert a == [a[0]] + a[1..];
      ConcatAssoc([a[0]], a[1..], RenderConditional(t, data));
    }
  }


  predicate IsWord(key: string) {
    key != [] && forall i :: 0 <= i < |key| ==> IsWordChar(key[i])
  }

  lemma SpanOfPrefix(a: string, rest: string, p: char -> bool)
    requires forall i :: 0 <= i < |a| ==> p(a[i])
    requires rest != [] && !p(rest[0])
    ensures Span(a + rest, p) == |a|
  {
    var s := a + rest;
    assert s[|a|] == rest[0];
    assert forall i :: 0 <= i < |a| ==> s[i] == a[i];
  }

  lemma FirstOccurrenceAt(content: string, pat: string, rest: string)
    requires NoneBefore(content + pat + rest, pat, |content|)
    ensures FirstOccurrence(content + pat + rest, pat) == Some(|content|)
  {
    var body := content + pat + rest;
    var r := FirstOccurrence(body, pat);
    assert body[|content|..] == pat + rest;
    assert OccursAt(body, pat, |content|);
    assert r.Some?;
    assert OccursAt(body, pat, r.value);
  }

  /** `{{#if key}}` with one space before the key. */
  function OpenTagText(key: string): (t: string)
    ensures |t| == |IfOpen| + |key| + 3
  {
    IfOpen + " " + key + "}}"
  }

  /** A well-formed opening tag matches, whatever follows it. */
  lemma OpenTagMatches(key: string, body: string)
    requires IsWord(key)
    ensures MatchOpenTag(OpenTagText(key) + body) == Some(OpenTag(key, |OpenTagText(key)|))
  {
    var tail := "}}" + body;
    var s := OpenTagText(key) + body;
    assert s == IfOpen + " " + key + tail;
    assert StartsWith(s, IfOpen);
    assert s[|IfOpen|..] == " " + (key + tail);
    assert !IsSpace(key[0]);
    SpanOfPrefix(" ", key + tail, IsSpace);
    assert s[|IfOpen| + 1..] == key + tail;
    assert tail[0] == '}';
    SpanOfPrefix(key, tail, IsWordChar);
    assert s[|IfOpen| + 1 + |key|..] == tail;
    assert StartsWith(tail, "}}");
    assert s[|IfOpen| + 1..|IfOpen| + 1 + |key|] == key;
  }

  /** What follows a block `{{#if key}}content{{/if}}`. */
  lemma BlockEnd(key: string, content: string, rest: string)
    ensures (OpenTagText(key) + (content + IfClose + rest))[|OpenTagText(key)| + |content| + |IfClose|..] == rest
  {
  }

  /** Text that starts at `i` with `u` holds `u` from `i` on. */
  lemma TakeAfter(s: string, i: nat, u: string, v: string, w: string)
    requires i <= |s| && s[i..] == u + v + w
    ensures i + |u| <= |s| && s[i..i + |u|] == u
  {
    assert s[i..i + |u|] == s[i..][..|u|];
    assert (u + v + w)[..|u|] == u;
  }

  /** The first `{{/if}}` after the tag closes the block. */
  lemma CloseBlockOf(s: string, tag: OpenTag, content: string, rest: string)
    requires 0 < tag.end <= |s|
    requires s[tag.end..] == content + IfClose + rest
    requires NoneBefore(content + IfClose + rest, IfClose, |content|)
    ensures CloseBlock(s, tag) == Some(IfBlock(tag.key, content, tag.end + |content| + |IfClose|))
  {
    FirstOccurrenceAt(content, IfClose, rest);
    TakeAfter(s, tag.end, content, IfClose, rest);
  }

  /** The block made of an opening tag and the first `{{/if}}` after it. */
  lemma MatchIfOf(s: string, tag: OpenTag, b: IfBlock)
    requires MatchOpenTag(s) == Some(tag)
    requires CloseBlock(s, tag) == Some(b)
    ensures MatchIf(s) == Some(b)
  {
  }

  /** The content of a block ends at the first `{{/if}}` after its opening tag. */
  lemma BlockCloses(key: string, content: string, rest: string)
    requires NoneBefore(content + IfClose + rest, IfClose, |content|)
    ensures CloseBlock(OpenTagText(key) + (content + IfClose + rest), OpenTag(key, |OpenTagText(key)|))
            == Some(IfBlock(key, content, |OpenTagText(key)| + |content| + |IfClose|))
  {
    var s := OpenTagText(key) + (content + IfClose + rest);
    assert s[|OpenTagText(key)|..] == content + IfClose + rest;
    CloseBlockOf(s, OpenTag(key, |OpenTagText(key)|), content, rest);
  }

  /** A block whose content holds no `{{/if}}` matches as a whole. */
  lemma MatchBlock(key: string, content: string, rest: string)
    requires IsWord(key)
    requires NoneBefore(content + IfClose + rest, IfClose, |content|)
    ensures MatchIf(OpenTagText(key) + (content + IfClose + rest))
            == Some(IfBlock(key, content, |OpenTagText(key)| + |content| + |IfClose|))
  {
    BlockCloses(key, content, rest);
    OpenTagMatches(key, content + IfClose + rest);
    MatchIfOf(OpenTagText(key) + (content + IfClose + rest), OpenTag(key, |OpenTagText(key)|),
              IfBlock(key, content, |OpenTagText(key)| + |content| + |IfClose|));
  }

  /** A block after text in which no block starts: the text, then the block's content or
      nothing, then the rendering of what follows the block. */
  lemma RenderMatched(a: string, s: string, key: string, content: string, length: nat, rest: string,
                      data: seq<Entry>)
    requires NoneBefore(a + s, IfOpen, |a|)
    requires MatchIf(s) == Some(IfBlock(key, content, length))
    requires s[length..] == rest
    ensures RenderConditional(a + s, data)
            == a + (if Truthy(Lookup(data, key)) then content else "") + RenderConditional(rest, data)
  {
    ConditionalPrefix(a, s, data);
    ConditionalBlockStep(s, data, IfBlock(key, content, length));
    ConcatAssoc(a, if Truthy(Lookup(data, key)) then content else "", RenderConditional(rest, data));
  }

  /** A truthy key keeps the content of its block, a falsy or missing one removes the block;
      the text before it, in which no block starts, is kept. */
  lemma RenderBlock(a: string, key: string, content: string, rest: string, data: seq<Entry>)
    requires IsWord(key)
    requires NoneBefore(a + (OpenTagText(key) + (content + IfClose + rest)), IfOpen, |a|)
    requires NoneBefore(content + IfClose + rest, IfClose, |content|)
    ensures RenderConditional(a + (OpenTagText(key) + (content + IfClose + rest)), data)
            == a + (if Truthy(Lookup(data, key)) then content else "") + RenderConditional(rest, data)
  {
    var s := OpenTagText(key) + (content + IfClose + rest);
    var length := |OpenTagText(key)| + |content| + |IfClose|;
    BlockEnd(key, content, rest);
    MatchBlock(key, content, rest);
    RenderMatched(a, s, key, content, length, rest, data);
  }

  // ------------------------------------------------------------ render

  predicate IsFlatEntry(e: Entry) { e.value.Flat? }

  function ToFlat(e: Entry): FlatEntry
    requires e.value.Flat?
  {
    FlatEntry(e.key, e.value.v)
  }

  function AsFlat(e: Entry): FlatEntry {
    if e.value.Flat? then ToFlat(e) else FlatEntry(e.key, Undefined)
  }

  /** `flatData`: the entries with a string, number, boolean or `undefined` value, in entry
      order. */
  function FlatEntries(data: seq<Entry>): (r: seq<FlatEntry>)
    ensures forall e :: e in r <==> exists i :: 0 <= i < |data| && data[i].value.Flat? && e == ToFlat(data[i])
  {
    var kept := Filter(data, IsFlatEntry);
    assert forall e :: e in MapSeq(kept, AsFlat) ==> exists i :: 0 <= i < |data| && data[i].value.Flat? && e == ToFlat(data[i]) by {
      forall e | e in MapSeq(kept, AsFlat)
        ensures exists i :: 0 <= i < |data| && data[i].value.Flat? && e == ToFlat(data[i])
      {
        var k :| 0 <= k < |kept| && MapSeq(kept, AsFlat)[k] == e;
        assert kept[k] in data;
      }
    }
    assert forall i :: 0 <= i < |data| && data[i].value.Flat? ==> ToFlat(data[i]) in MapSeq(kept, AsFlat) by {
      forall i | 0 <= i < |data| && data[i].value.Flat? ensures ToFlat(data[i]) in MapSeq(kept, AsFlat) {
        assert data[i] in kept;
        var k :| 0 <= k < |kept| && kept[k] == data[i];
        assert MapSeq(kept, AsFlat)[k] == ToFlat(data[i]);
      }
    }
    MapSeq(kept, AsFlat)
  }

  /** A key whose value is `null` or an object is never substituted: its placeholders stay. */
  lemma NonFlatKeyNotSubstituted(data: seq<Entry>, key: string)
    requires forall i :: 0 <= i < |data| && data[i].key == key ==> !data[i].value.Flat?
    ensures forall e :: e in FlatEntries(data) ==> e.key != key
  {
  }

  /** The loop of `render` that collects the flat entries. */
  method CollectFlatEntries(data: seq<Entry>) returns (flatData: seq<FlatEntry>)
    ensures flatData == FlatEntries(data)
  {
    flatData := [];
    for i := 0 to |data|
      invariant flatData == MapSeq(Filter(data[..i], IsFlatEntry), AsFlat)
    {
      assert data[..i + 1] == data[..i] + [data[i]];
      FilterSnoc(data[..i], data[i], IsFlatEntry);
      if data[i].value.Flat? {
        MapSnoc(Filter(data[..i], IsFlatEntry), data[i], AsFlat);
        flatData := flatData + [FlatEntry(data[i].key, data[i].value.v)];
      }
    }
    assert data[..|data|] == data;
  }

  /** `render`: conditional blocks first, then the placeholders of the flat entries. */
  method Render(template: string, data: seq<Entry>) returns (result: string)
    ensures result == SubstituteAll(RenderConditional(template, data), FlatEntries(data))
  {
    result := RenderConditional(template, data);
    var flatData := CollectFlatEntries(data);
    result := RenderTemplate(result, flatData);
  }
}
