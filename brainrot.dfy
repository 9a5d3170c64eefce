/**
 * The conversion of lib/brainrot.ts from summary.json entries to competitor
 * records, with the JavaScript string operations it uses (replace of a
 * string pattern, split, includes) written out on seq<char>.
 */
module Brainrot {
  import opened Models

  /** One entry of summary.json. */
  datatype Summary = Summary(model: string, ideaName: string, videoPath: string, reasoning: string)

  /** A competitor record together with the video it is shown through. */
  datatype VideoModel = VideoModel(record: Model, ideaName: string, videoPath: string, reasoning: string)

  /** Outcome of fetching and parsing /summary.json; any failure collapses into Unavailable. */
  datatype SummaryFetch = Unavailable | Loaded(items: seq<Summary>)

  // ---------------------------------------------------------------- strings

  /** Position of the first `c` in `s`, or -1 (String.prototype.indexOf). */
  function IndexOf(s: string, c: char): (k: int)
    ensures -1 <= k < |s|
    ensures k == -1 <==> c !in s
    ensures k >= 0 ==> s[k] == c && c !in s[..k]
  {
    if s == [] then -1
    else if s[0] == c then 0
    else
      var k := IndexOf(s[1..], c);
      assert s[1..][..if k < 0 then 0 else k] == s[1..if k < 0 then 1 else k + 1];
      if k < 0 then -1 else k + 1
  }

  /**
   * s.replace(from, to) for a one-character pattern: only the first occurrence
   * is replaced, later ones survive.
   */
  function ReplaceFirst(s: string, from: char, to: char): (r: string)
    ensures |r| == |s|
    ensures from !in s ==> r == s
    ensures from in s ==>
              var k := IndexOf(s, from);
              r[..k] == s[..k] && r[k] == to && r[k + 1..] == s[k + 1..]
  {
    var k := IndexOf(s, from);
    if k < 0 then s else s[..k] + [to] + s[k + 1..]
  }

  /** With a different replacement, exactly one occurrence of `from` disappears. */
  lemma {:induction false} ReplaceFirstRemovesOne(s: string, from: char, to: char)
    requires from != to && from in s
    ensures multiset(ReplaceFirst(s, from, to))[from] == multiset(s)[from] - 1
    ensures multiset(ReplaceFirst(s, from, to))[to] == multiset(s)[to] + 1
  {
    var k := IndexOf(s, from);
    var r := ReplaceFirst(s, from, to);
    assert s == s[..k] + [s[k]] + s[k + 1..];
    assert r == r[..k] + [r[k]] + r[k + 1..];
  }

  /** The first `c` of p + [c] + q is right after p when p has none. */
  lemma IndexOfAfter(p: string, c: char, q: string)
    requires c !in p
    ensures IndexOf(p + [c] + q, c) == |p|
  {
    var s := p + [c] + q;
    assert s[|p|] == c;
    assert s[..|p|] == p;
  }

  /** Replacing in p + "/" + q, with no "/" in p, gives p + "_" + q: later slashes in q survive. */
  lemma ReplaceFirstAfter(p: string, from: char, to: char, q: string)
    requires from !in p
    ensures ReplaceFirst(p + [from] + q, from, to) == p + [to] + q
  {
    var s := p + [from] + q;
    IndexOfAfter(p, from, q);
    assert s[..|p|] == p && s[|p| + 1..] == q;
  }

  /** s.split(sep): the pieces between the separators, always at least one. */
  function Split(s: string, sep: char): (parts: seq<string>)
    ensures |parts| >= 1
    ensures forall i :: 0 <= i < |parts| ==> sep !in parts[i]
    ensures sep !in s ==> parts == [s]
    ensures sep in s ==> |parts| >= 2
    decreases |s|
  {
    if s == [] then [""]
    else
      var rest := Split(s[1..], sep);
      if s[0] == sep then [""] + rest
      else
        assert sep !in s ==> [s[0]] + rest[0] == s;
        [[s[0]] + rest[0]] + rest[1..]
  }

  /** parts.join(sep), the inverse of Split. */
  function Join(parts: seq<string>, sep: char): string
    requires |parts| >= 1
  {
    if |parts| == 1 then parts[0] else parts[0] + [sep] + Join(parts[1..], sep)
  }

  /** Joining the pieces of a split gives back the original string. */
  lemma {:induction false} JoinSplit(s: string, sep: char)
    ensures Join(Split(s, sep), sep) == s
    decreases |s|
  {
    if s != [] {
      JoinSplit(s[1..], sep);
      var rest := Split(s[1..], sep);
      if s[0] != sep {
        if |rest| > 1 {
          assert ([[s[0]] + rest[0]] + rest[1..])[1..] == rest[1..];
        }
      } else {
        assert ([""] + rest)[1..] == rest;
      }
    }
  }

  /** Splitting p + [sep] + q, with no separator in p, gives p first and then the pieces of q. */
  lemma {:induction false} SplitAtFirst(p: string, sep: char, q: string)
    requires sep !in p
    ensures Split(p + [sep] + q, sep) == [p] + Split(q, sep)
    decreases |p|
  {
    if p == [] {
      assert ([] + [sep] + q)[1..] == q;
    } else {
      assert (p + [sep] + q)[1..] == p[1..] + [sep] + q;
      SplitAtFirst(p[1..], sep, q);
      assert [p[0]] + p[1..] == p;
    }
  }

  /** Whether `prefix` starts `s`. */
  predicate IsPrefix(prefix: string, s: string)
  {
    |prefix| <= |s| && s[..|prefix|] == prefix
  }

  /** `sub` occurs in `s` starting at position i. */
  predicate OccursAt(s: string, sub: string, i: int)
  {
    0 <= i && i + |sub| <= |s| && s[i..i + |sub|] == sub
  }

  /** s.includes(sub). */
  function Contains(s: string, sub: string): (b: bool)
    ensures IsPrefix(sub, s) ==> b
    ensures b ==> |sub| <= |s|
    ensures sub == [] ==> b
    decreases |s|
  {
    IsPrefix(sub, s) || (s != [] && Contains(s[1..], sub))
  }

  /** Contains agrees with "sub occurs at some position of s". */
  lemma {:induction false} ContainsIffOccurs(s: string, sub: string)
    ensures Contains(s, sub) <==> exists i :: OccursAt(s, sub, i)
    decreases |s|
  {
    if IsPrefix(sub, s) {
      assert OccursAt(s, sub, 0);
    } else if s != [] {
      ContainsIffOccurs(s[1..], sub);
      if Contains(s[1..], sub) {
        var i :| OccursAt(s[1..], sub, i);
        assert OccursAt(s, sub, i + 1);
      }
      if exists i :: OccursAt(s, sub, i) {
        var i :| OccursAt(s, sub, i);
        assert i != 0;
        assert OccursAt(s[1..], sub, i - 1);
      }
    } else {
      assert forall i :: !OccursAt(s, sub, i);
    }
  }

  /** A string lacking one of the characters of `sub` cannot include it. */
  lemma {:induction false} MissingCharNotContained(s: string, sub: string, k: nat)
    requires k < |sub| && sub[k] !in s
    ensures !Contains(s, sub)
    decreases |s|
  {
    if s != [] {
      MissingCharNotContained(s[1..], sub, k);
    }
  }

  // ------------------------------------------------------------ conversion

  /** The id: the first "/" of the model string becomes "_". */
  function ModelId(model: string): (id: string)
    ensures |id| == |model|
    ensures '/' !in model ==> id == model
    ensures '/' in model ==>
              id[IndexOf(model, '/')] == '_' &&
              forall k :: 0 <= k < |model| && k != IndexOf(model, '/') ==> id[k] == model[k]
    ensures '/' in model ==>
              multiset(id)['/'] == multiset(model)['/'] - 1 && multiset(id)['_'] == multiset(model)['_'] + 1
  {
    if '/' in model then
      ReplaceFirstRemovesOne(model, '/', '_');
      ReplaceFirst(model, '/', '_')
    else model
  }

  /**
   * `${vendor} ${model.split("/")[1]}`: JavaScript prints a missing second
   * piece as "undefined".
   */
  function SecondSegment(model: string): (seg: string)
    ensures '/' !in model ==> seg == "undefined"
    ensures '/' in model ==> '/' !in seg
  {
    var parts := Split(model, '/');
    if |parts| > 1 then parts[1] else "undefined"
  }

  /** The display name: "OpenAI " or "Google " and the second path piece. */
  function ModelName(model: string): (name: string)
    ensures Contains(model, "openai") ==> name == "OpenAI " + SecondSegment(model)
    ensures !Contains(model, "openai") ==> name == "Google " + SecondSegment(model)
  {
    if Contains(model, "openai") then "OpenAI " + SecondSegment(model)
    else "Google " + SecondSegment(model)
  }

  /** The second segment is the text between the first and the second "/". */
  lemma SecondSegmentAfter(p: string, q: string)
    requires '/' !in p
    ensures SecondSegment(p + ['/'] + q) == Split(q, '/')[0]
  {
    SplitAtFirst(p, '/', q);
  }

  /** video_path.replace(/^public\//, "/"): only a leading "public/" is shortened. */
  function PublicPath(path: string): (r: string)
    ensures IsPrefix("public/", path) ==> "public" + r == path
    ensures !IsPrefix("public/", path) ==> r == path
  {
    if IsPrefix("public/", path) then
      assert path == path[..7] + path[7..];
      "/" + path[7..]
    else path
  }

  /** One summary entry as a fresh competitor record with its video. */
  function ToVideoModel(item: Summary): (v: VideoModel)
    ensures Fresh(v.record) && CountersConsistent(v.record)
    ensures v.record.id == ModelId(item.model) && v.record.name == ModelName(item.model)
    ensures v.ideaName == item.ideaName && v.reasoning == item.reasoning
    ensures v.videoPath == PublicPath(item.videoPath)
  {
    VideoModel(
      Model(ModelId(item.model), ModelName(item.model), 1000.0, 0, 0, 0, 0),
      item.ideaName,
      PublicPath(item.videoPath),
      item.reasoning)
  }

  /**
   * loadBrainrotModels after the fetch: one record per entry, in order; a
   * failed fetch or parse gives the empty list.
   */
  function LoadBrainrotModels(fetch: SummaryFetch): (vs: seq<VideoModel>)
    ensures fetch.Unavailable? ==> vs == []
    ensures fetch.Loaded? ==> |vs| == |fetch.items|
    ensures fetch.Loaded? ==> forall i :: 0 <= i < |vs| ==> vs[i] == ToVideoModel(fetch.items[i])
  {
    match fetch
    case Unavailable => []
    case Loaded(items) => seq(|items|, i requires 0 <= i < |items| => ToVideoModel(items[i]))
  }
}
