/**
 * Tag normalisation: each tag is lower-cased and has its spaces replaced by
 * `-`. Search results carry tag objects, whose `tag_name` is normalised.
 * Case mapping is modelled on ASCII letters only.
 */
module Transforms {
  import opened Builtins

  predicate IsUpper(c: char) {
    'A' <= c <= 'Z'
  }

  function LowerChar(c: char): char {
    if IsUpper(c) then (c as int + 32) as char else c
  }

  /** `s.lower()`. */
  function Lower(s: string): (r: string)
    ensures |r| == |s|
    ensures forall i :: 0 <= i < |s| ==> r[i] == LowerChar(s[i])
  {
    if s == [] then [] else [LowerChar(s[0])] + Lower(s[1..])
  }

  /** `s.replace(" ", "-")`. */
  function ReplaceSpaces(s: string): (r: string)
    ensures |r| == |s|
    ensures forall i :: 0 <= i < |s| ==> r[i] == (if s[i] == ' ' then '-' else s[i])
  {
    if s == [] then [] else [if s[0] == ' ' then '-' else s[0]] + ReplaceSpaces(s[1..])
  }

  /** One tag as both processors rewrite it. */
  function NormaliseTag(tag: string): string {
    ReplaceSpaces(Lower(tag))
  }

  /** A normalised tag has the input's length, keeps every other character and holds no space and no upper-case letter. */
  lemma NormaliseTagShape(tag: string)
    ensures |NormaliseTag(tag)| == |tag|
    ensures forall i :: 0 <= i < |tag| ==> NormaliseTag(tag)[i] != ' ' && !IsUpper(NormaliseTag(tag)[i])
    ensures forall i :: 0 <= i < |tag| && tag[i] != ' ' && !IsUpper(tag[i]) ==> NormaliseTag(tag)[i] == tag[i]
  {
  }

  /** Normalising a tag twice is the same as normalising it once. */
  lemma NormaliseTagIdempotent(tag: string)
    ensures NormaliseTag(NormaliseTag(tag)) == NormaliseTag(tag)
  {
    NormaliseTagShape(tag);
    NormaliseTagShape(NormaliseTag(tag));
  }

  /** `preprocess_crawl_tags`: one normalised tag per input tag, in the same order. */
  function PreprocessCrawlTags(tags: seq<string>): (r: seq<string>)
    ensures |r| == |tags|
    ensures forall i :: 0 <= i < |tags| ==> r[i] == NormaliseTag(tags[i])
  {
    if tags == [] then [] else [NormaliseTag(tags[0])] + PreprocessCrawlTags(tags[1..])
  }

  /** Applying the crawl normalisation twice equals applying it once. */
  lemma PreprocessCrawlTagsIdempotent(tags: seq<string>)
    ensures PreprocessCrawlTags(PreprocessCrawlTags(tags)) == PreprocessCrawlTags(tags)
  {
    forall i | 0 <= i < |tags|
      ensures PreprocessCrawlTags(PreprocessCrawlTags(tags))[i] == PreprocessCrawlTags(tags)[i]
    {
      NormaliseTagIdempotent(tags[i]);
    }
  }

  /** "Xyz" normalises to "xyz". */
  lemma NormaliseXyz()
    ensures NormaliseTag("Xyz") == "xyz"
  {
    var a := NormaliseTag("Xyz");
    assert a[0] == 'x' && a[1] == 'y' && a[2] == 'z';
  }

  /** "xyz Xyz" normalises to "xyz-xyz". */
  lemma NormaliseXyzXyz()
    ensures NormaliseTag("xyz Xyz") == "xyz-xyz"
  {
    var b := NormaliseTag("xyz Xyz");
    assert b[0] == 'x' && b[1] == 'y' && b[2] == 'z' && b[3] == '-' && b[4] == 'x' && b[5] == 'y' && b[6] == 'z';
  }

  /** "Xyz Xyz" normalises to "xyz-xyz". */
  lemma NormaliseXyzSpaceXyz()
    ensures NormaliseTag("Xyz Xyz") == "xyz-xyz"
  {
    var b := NormaliseTag("Xyz Xyz");
    assert b[0] == 'x' && b[1] == 'y' && b[2] == 'z' && b[3] == '-' && b[4] == 'x' && b[5] == 'y' && b[6] == 'z';
  }

  /** `preprocess_crawl_tags` turns "Xyz" and "xyz Xyz" into "xyz" and "xyz-xyz". */
  lemma CrawlTagsExample()
    ensures PreprocessCrawlTags(["Xyz", "xyz Xyz"]) == ["xyz", "xyz-xyz"]
  {
    NormaliseXyz();
    NormaliseXyzXyz();
  }

  /** `tag["tag_name"]`, which must be a string for `.lower()`. */
  function TagName(tag: Json): (r: Result<string>)
    ensures r.Ok? <==> tag.Obj? && "tag_name" in tag.fields && tag.fields["tag_name"].Str?
    ensures r.Ok? ==> tag.fields["tag_name"] == Str(r.value)
  {
    match Subscript(tag, "tag_name")
    case Err(e) => Err(e)
    case Ok(name) => if name.Str? then Ok(name.s) else Err(Raised("AttributeError"))
  }

  /** The `tag_name` of each tag object, or the first exception. */
  function TagNames(tags: seq<Json>): Result<seq<string>> {
    if tags == [] then Ok([])
    else
      match TagName(tags[0])
      case Err(e) => Err(e)
      case Ok(name) =>
        match TagNames(tags[1..])
        case Err(e) => Err(e)
        case Ok(names) => Ok([name] + names)
  }

  /** The `tag_name` of tag objects, read in order. */
  lemma {:induction false} TagNamesOfObjects(tags: seq<Json>, names: seq<string>)
    requires |tags| == |names|
    requires forall i :: 0 <= i < |tags| ==>
               tags[i].Obj? && "tag_name" in tags[i].fields && tags[i].fields["tag_name"] == Str(names[i])
    ensures TagNames(tags) == Ok(names)
    decreases |tags|
  {
    if tags != [] {
      TagNamesOfObjects(tags[1..], names[1..]);
      assert [names[0]] + names[1..] == names;
    }
  }

  /** `preprocess_search_tags`: the comprehension, tag by tag, stopping at the first exception. */
  function PreprocessSearchTags(tags: seq<Json>): (r: Result<seq<string>>)
    ensures r.Ok? ==> |r.value| == |tags|
  {
    if tags == [] then Ok([])
    else
      match TagName(tags[0])
      case Err(e) => Err(e)
      case Ok(name) =>
        match PreprocessSearchTags(tags[1..])
        case Err(e) => Err(e)
        case Ok(rest) => Ok([NormaliseTag(name)] + rest)
  }

  /** Search-tag processing is crawl-tag processing of the projected `tag_name`s. */
  lemma {:induction false} SearchTagsAreCrawlTagsOfNames(tags: seq<Json>)
    ensures PreprocessSearchTags(tags)
         == match TagNames(tags)
            case Err(e) => Err(e)
            case Ok(names) => Ok(PreprocessCrawlTags(names))
  {
    if tags != [] {
      SearchTagsAreCrawlTagsOfNames(tags[1..]);
      match TagName(tags[0])
      case Err(e) =>
      case Ok(name) =>
        match TagNames(tags[1..])
        case Err(e) =>
        case Ok(names) =>
          assert ([name] + names)[1..] == names;
    }
  }

  /** `preprocess_search_tags` turns the tag objects "Xyz" and "Xyz Xyz" into "xyz" and "xyz-xyz". */
  lemma SearchTagsExample()
    ensures PreprocessSearchTags([Obj(map["tag_name" := Str("Xyz")]), Obj(map["tag_name" := Str("Xyz Xyz")])])
         == Ok(["xyz", "xyz-xyz"])
  {
    var tags := [Obj(map["tag_name" := Str("Xyz")]), Obj(map["tag_name" := Str("Xyz Xyz")])];
    TagNamesOfObjects(tags, ["Xyz", "Xyz Xyz"]);
    SearchTagsAreCrawlTagsOfNames(tags);
    NormaliseXyz();
    NormaliseXyzSpaceXyz();
    assert PreprocessCrawlTags(["Xyz", "Xyz Xyz"]) == ["xyz", "xyz-xyz"];
  }
}
