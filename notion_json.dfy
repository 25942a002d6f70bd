/**
 * The JSON objects the Notion API returns, as far as the crawler reads them, and the
 * pure helpers of the crawler that turn them into text (app/notion_scraper.py:40-125).
 *
 * A JSON key that may be missing is an `Option` (None: the key is absent). Where the
 * crawler behaves differently for a missing key and for an explicit `null` on a property
 * payload (Python's `d.get(k, default)` gives the default only for a missing key), the
 * value is a `Field`. The `plain_text` of a rich-text part, the `name` of a named option
 * and the `id` of a relation stay `Option`s: an explicit `null` there is read as missing.
 */
module NotionJson {
  import opened Common

  type Id = string

  datatype Field<+T> = Absent | Null | Present(value: T)

  /** One element of a rich-text array; only `plain_text` is read. */
  datatype RichText = RichText(plainText: Option<string>)

  /** A select or status option, or a person: only `name` is read. */
  datatype Named = Named(name: Option<string>)

  /** An element of a relation property: only `id` is read. */
  datatype Relation = Relation(id: Option<string>)

  /** The payload of a date property; `end` is None when missing or null. */
  datatype DateRange = DateRange(start: string, end: Option<string>)

  /** A page property value, tagged by its `type`. */
  datatype PropertyValue =
    | TitleValue(title: Option<seq<RichText>>)
    | RichTextValue(richText: Option<seq<RichText>>)
    | SelectValue(select: Field<Named>)
    | MultiSelectValue(options: Field<seq<Named>>)
    | PeopleValue(people: Field<seq<Named>>)
    | RelationValue(relations: Field<seq<Relation>>)
    | StatusValue(status: Field<Named>)
    /** `shown` is Python's `str()` of the number payload, which is not modelled. */
    | NumberValue(shown: string)
    | DateValue(date: Field<DateRange>)
    | UrlValue(url: Option<string>)
    | EmailValue(email: Option<string>)
    | PhoneValue(phone: Option<string>)
    | CheckboxValue(checked: Field<bool>)
    /** Any other `type` tag, or none at all. */
    | OtherValue(typeTag: Option<string>)

  /** A page object: its properties in the order the API returns them. */
  datatype Page = Page(properties: seq<(string, PropertyValue)>)

  datatype Database = Database(title: Option<seq<RichText>>)

  datatype BlockKind =
    | ChildPage(pageTitle: Option<string>)
    | ChildDatabase(databaseTitle: Option<string>)
    /** Any other block type; `richText` is None when its payload has no `rich_text` key. */
    | Content(typeTag: string, richText: Option<seq<RichText>>)

  datatype Block = Block(id: Id, kind: BlockKind, hasChildren: bool)

  const Untitled := "(untitled)"
  const UntitledDatabase := "(untitled database)"

  // ---------------------------------------------------------------- normalize_id

  function RemoveHyphens(s: string): (r: string)
    ensures forall i :: 0 <= i < |r| ==> r[i] != '-'
    ensures |r| <= |s|
  {
    if s == [] then "" else (if s[0] == '-' then "" else [s[0]]) + RemoveHyphens(s[1..])
  }

  /** The 8-4-4-4-12 layout of a 32-character hyphen-free id. */
  function Hyphenate(rid: string): (r: string)
    requires |rid| == 32
  {
    rid[0..8] + "-" + rid[8..12] + "-" + rid[12..16] + "-" + rid[16..20] + "-" + rid[20..32]
  }

  /**
   * The canonical 8-4-4-4-12 form of an identifier whose hyphen-free form has 32
   * characters; any other identifier is returned unchanged.
   */
  function NormalizeId(raw: string): (r: string)
    ensures RemoveHyphens(r) == RemoveHyphens(raw)
    ensures |RemoveHyphens(raw)| != 32 ==> r == raw
    ensures |RemoveHyphens(raw)| == 32 ==> |r| == 36
  {
    var rid := RemoveHyphens(raw);
    if |rid| != 32 then raw
    else
      HyphenateRoundTrip(rid);
      Hyphenate(rid)
  }

  lemma {:induction false} RemoveHyphensAppend(a: string, b: string)
    ensures RemoveHyphens(a + b) == RemoveHyphens(a) + RemoveHyphens(b)
  {
    if a == [] {
      assert a + b == b;
    } else {
      assert (a + b)[1..] == a[1..] + b;
      RemoveHyphensAppend(a[1..], b);
    }
  }

  lemma {:induction false} RemoveHyphensNoHyphen(s: string)
    requires forall i :: 0 <= i < |s| ==> s[i] != '-'
    ensures RemoveHyphens(s) == s
  {
    if s != [] {
      RemoveHyphensNoHyphen(s[1..]);
    }
  }

  lemma RemoveHyphensAroundDash(x: string, y: string)
    ensures RemoveHyphens(x + "-" + y) == RemoveHyphens(x) + RemoveHyphens(y)
  {
    RemoveHyphensAppend(x, "-");
    RemoveHyphensAppend(x + "-", y);
  }

  /** Removing the hyphens from the 8-4-4-4-12 layout gives the hyphen-free id back. */
  lemma HyphenateRoundTrip(rid: string)
    requires |rid| == 32 && forall i :: 0 <= i < 32 ==> rid[i] != '-'
    ensures RemoveHyphens(Hyphenate(rid)) == rid
  {
    var a, b, c, d, e := rid[0..8], rid[8..12], rid[12..16], rid[16..20], rid[20..32];
    RemoveHyphensNoHyphen(a);
    RemoveHyphensNoHyphen(b);
    RemoveHyphensNoHyphen(c);
    RemoveHyphensNoHyphen(d);
    RemoveHyphensNoHyphen(e);
    var s1 := a + "-" + b;
    var s2 := s1 + "-" + c;
    var s3 := s2 + "-" + d;
    var s4 := s3 + "-" + e;
    RemoveHyphensAroundDash(a, b);
    RemoveHyphensAroundDash(s1, c);
    RemoveHyphensAroundDash(s2, d);
    RemoveHyphensAroundDash(s3, e);
    assert rid[0..12] == a + b;
    assert rid[0..16] == rid[0..12] + c;
    assert rid[0..20] == rid[0..16] + d;
    assert rid == rid[0..20] + e;
  }

  /** The 8-4-4-4-12 layout has hyphens at positions 8, 13, 18 and 23 and nowhere else. */
  lemma HyphenatePositions(rid: string)
    requires |rid| == 32 && forall i :: 0 <= i < 32 ==> rid[i] != '-'
    ensures |Hyphenate(rid)| == 36
    ensures forall i :: 0 <= i < 36 ==> (Hyphenate(rid)[i] == '-' <==> i in {8, 13, 18, 23})
  {
    var r := Hyphenate(rid);
    forall i | 0 <= i < 36 ensures r[i] == '-' <==> i in {8, 13, 18, 23} {
      if i < 8 { assert r[i] == rid[i]; }
      else if i == 8 || i == 13 || i == 18 || i == 23 { }
      else if i < 13 { assert r[i] == rid[i - 1]; }
      else if i < 18 { assert r[i] == rid[i - 2]; }
      else if i < 23 { assert r[i] == rid[i - 3]; }
      else { assert r[i] == rid[i - 4]; }
    }
  }

  /**
   * normalize_id: when the hyphen-free id has 32 characters the result has hyphens
   * exactly at positions 8, 13, 18 and 23 and removing them gives the hyphen-free id
   * back; otherwise the input is returned unchanged.
   */
  lemma NormalizeIdShape(raw: string)
    ensures var rid := RemoveHyphens(raw); var r := NormalizeId(raw);
      if |rid| == 32 then
        |r| == 36 && RemoveHyphens(r) == rid
        && forall i :: 0 <= i < 36 ==> (r[i] == '-' <==> i in {8, 13, 18, 23})
      else r == raw
  {
    var rid := RemoveHyphens(raw);
    if |rid| == 32 {
      HyphenateRoundTrip(rid);
      HyphenatePositions(rid);
    }
  }

  /** normalize_id is idempotent. */
  lemma NormalizeIdIdempotent(raw: string)
    ensures NormalizeId(NormalizeId(raw)) == NormalizeId(raw)
  {
    var rid := RemoveHyphens(raw);
    if |rid| == 32 {
      HyphenateRoundTrip(rid);
    }
  }

  // ---------------------------------------------------------------- rich text and titles

  function PlainText(part: RichText): string
  {
    part.plainText.GetOr("")
  }

  /** flatten_rich_text on a list: the parts' plain texts, in order. */
  function FlattenRichText(parts: seq<RichText>): string
  {
    if parts == [] then "" else PlainText(parts[0]) + FlattenRichText(parts[1..])
  }

  /** flatten_rich_text on an optional list: a missing or null list gives "". */
  function FlattenOptional(parts: Option<seq<RichText>>): string
  {
    match parts
    case Some(ps) => FlattenRichText(ps)
    case None => ""
  }

  /** Flattening distributes over concatenation of the rich-text array. */
  lemma {:induction false} FlattenAppend(a: seq<RichText>, b: seq<RichText>)
    ensures FlattenRichText(a + b) == FlattenRichText(a) + FlattenRichText(b)
  {
    if a == [] {
      assert a + b == b;
    } else {
      assert (a + b)[1..] == a[1..] + b;
      FlattenAppend(a[1..], b);
    }
  }

  /** The flattened text is exactly the parts' texts laid end to end. */
  lemma {:induction false} FlattenIsConcat(parts: seq<RichText>)
    ensures FlattenRichText(parts) == Concat(seq(|parts|, i requires 0 <= i < |parts| => PlainText(parts[i])))
  {
    if parts != [] {
      FlattenIsConcat(parts[1..]);
      var all := seq(|parts|, i requires 0 <= i < |parts| => PlainText(parts[i]));
      assert all[1..] == seq(|parts| - 1, i requires 0 <= i < |parts| - 1 => PlainText(parts[1..][i]));
    }
  }

  /** Two parts "Hello " and "world" flatten to "Hello world"; a part without plain_text adds nothing. */
  lemma FlattenExample()
    ensures FlattenRichText([RichText(Some("Hello ")), RichText(None), RichText(Some("world"))]) == "Hello world"
  {
    var parts := [RichText(Some("Hello ")), RichText(None), RichText(Some("world"))];
    assert parts[1..] == [RichText(None), RichText(Some("world"))];
    assert parts[1..][1..] == [RichText(Some("world"))];
  }

  predicate IsTitle(p: (string, PropertyValue))
  {
    p.1.TitleValue?
  }

  /**
   * extract_page_title: the flattened text of the first title-typed property, falling
   * back to "(untitled)" when there is none or its text is empty.
   */
  function PageTitle(props: seq<(string, PropertyValue)>): (r: string)
    ensures r != ""
    ensures (forall i :: 0 <= i < |props| ==> !IsTitle(props[i])) ==> r == Untitled
  {
    var k := FirstTitle(props);
    if k == |props| then Untitled else OrElse(FlattenOptional(props[k].1.title), Untitled)
  }

  /** The title comes from the first title-typed property, whatever follows it. */
  lemma PageTitleIsFirst(props: seq<(string, PropertyValue)>, i: nat)
    requires i < |props| && IsTitle(props[i])
    requires forall j :: 0 <= j < i ==> !IsTitle(props[j])
    ensures PageTitle(props) == OrElse(FlattenOptional(props[i].1.title), Untitled)
  {
    var k := FirstTitle(props);
    assert k <= i;
  }

  /** The position of the first title-typed property, or |props| when there is none. */
  function FirstTitle(props: seq<(string, PropertyValue)>): (k: nat)
    ensures k <= |props|
    ensures forall j :: 0 <= j < k ==> !IsTitle(props[j])
    ensures k < |props| ==> IsTitle(props[k])
  {
    if props == [] || IsTitle(props[0]) then 0
    else
      var k := 1 + FirstTitle(props[1..]);
      assert forall j :: 1 <= j < k ==> props[j] == props[1..][j - 1];
      k
  }

  /** extract_database_title: never empty. */
  function DatabaseTitle(db: Database): (r: string)
    ensures r != ""
    ensures FlattenOptional(db.title) != "" ==> r == FlattenOptional(db.title)
    ensures FlattenOptional(db.title) == "" ==> r == UntitledDatabase
  {
    OrElse(FlattenOptional(db.title), UntitledDatabase)
  }

  // ---------------------------------------------------------------- properties

  /** Python's messages for the errors extract_property_text catches. */
  const NoneHasNoGet := "'NoneType' object has no attribute 'get'"
  const NoneNotIterable := "'NoneType' object is not iterable"

  function ParseError(message: string): string
  {
    "[property parse error: " + message + "]"
  }

  function NameOf(n: Named): string
  {
    n.name.GetOr("")
  }

  function Names(ns: seq<Named>): seq<string>
  {
    seq(|ns|, i requires 0 <= i < |ns| => NameOf(ns[i]))
  }

  function RelationIds(rs: seq<Relation>): seq<string>
  {
    seq(|rs|, i requires 0 <= i < |rs| => rs[i].id.GetOr(""))
  }

  /** `prop.get(key, {}).get("name", "")` for a select or status payload. */
  function OptionName(f: Field<Named>): string
  {
    match f
    case Absent => ""
    case Null => ParseError(NoneHasNoGet)
    case Present(n) => NameOf(n)
  }

  /** `", ".join(...)` over a list payload of names. */
  function JoinedNames(f: Field<seq<Named>>): string
  {
    match f
    case Absent => ""
    case Null => ParseError(NoneNotIterable)
    case Present(ns) => Join(Names(ns), ", ")
  }

  function PyBool(b: bool): string
  {
    if b then "True" else "False"
  }

  /**
   * extract_property_text: the human-readable text of one property value. The errors
   * Python raises on a null payload are caught and rendered as a parse-error string.
   */
  function PropertyText(p: PropertyValue): (r: string)
  {
    match p
    case TitleValue(rt) => FlattenOptional(rt)
    case RichTextValue(rt) => FlattenOptional(rt)
    case SelectValue(f) => OptionName(f)
    case MultiSelectValue(f) => JoinedNames(f)
    case PeopleValue(f) => JoinedNames(f)
    case RelationValue(f) =>
      (match f
       case Absent => ""
       case Null => ParseError(NoneNotIterable)
       case Present(rs) => Join(RelationIds(rs), ", "))
    case StatusValue(f) => OptionName(f)
    case NumberValue(shown) => shown
    case DateValue(f) =>
      (match f
       case Absent => ""
       case Null => ParseError(NoneHasNoGet)
       case Present(d) =>
         if d.end.Some? && d.end.value != "" then d.start + " -> " + d.end.value else d.start)
    case UrlValue(u) => u.GetOr("")
    case EmailValue(e) => e.GetOr("")
    case PhoneValue(ph) => ph.GetOr("")
    case CheckboxValue(f) =>
      (match f
       case Absent => "False"
       case Null => "None"
       case Present(b) => PyBool(b))
    case OtherValue(_) => ""
  }

  /** True for the payloads on which Python raises inside extract_property_text. */
  predicate NullPayload(p: PropertyValue)
  {
    || (p.SelectValue? && p.select.Null?)
    || (p.StatusValue? && p.status.Null?)
    || (p.MultiSelectValue? && p.options.Null?)
    || (p.PeopleValue? && p.people.Null?)
    || (p.RelationValue? && p.relations.Null?)
    || (p.DateValue? && p.date.Null?)
  }

  /**
   * extract_property_text never raises: a null payload renders as a parse error, an
   * unknown type renders as "", a missing select or status payload renders as "", the
   * list payloads join their names or ids with ", ", and the date renders as
   * "start -> end" only when an end is present.
   */
  lemma PropertyTextRules(p: PropertyValue)
    ensures NullPayload(p) ==> PropertyText(p) in {ParseError(NoneHasNoGet), ParseError(NoneNotIterable)}
    ensures p.OtherValue? ==> PropertyText(p) == ""
    ensures (p.SelectValue? && p.select.Absent?) || (p.StatusValue? && p.status.Absent?) ==> PropertyText(p) == ""
    ensures p.SelectValue? && p.select.Present? ==> PropertyText(p) == NameOf(p.select.value)
    ensures p.StatusValue? && p.status.Present? ==> PropertyText(p) == NameOf(p.status.value)
    ensures p.MultiSelectValue? && p.options.Present? ==> PropertyText(p) == Join(Names(p.options.value), ", ")
    ensures p.PeopleValue? && p.people.Present? ==> PropertyText(p) == Join(Names(p.people.value), ", ")
    ensures p.RelationValue? && p.relations.Present? ==> PropertyText(p) == Join(RelationIds(p.relations.value), ", ")
    ensures ((p.MultiSelectValue? && p.options.Absent?) || (p.PeopleValue? && p.people.Absent?)
             || (p.RelationValue? && p.relations.Absent?)) ==> PropertyText(p) == ""
    ensures p.CheckboxValue? && p.checked.Present? ==> PropertyText(p) == (if p.checked.value then "True" else "False")
    ensures p.CheckboxValue? && p.checked.Absent? ==> PropertyText(p) == "False"
    ensures p.DateValue? && p.date.Present? ==>
      PropertyText(p) == (if p.date.value.end.Some? && p.date.value.end.value != ""
                          then p.date.value.start + " -> " + p.date.value.end.value
                          else p.date.value.start)
  {
  }

  /** extract_text_from_block for a non-page, non-database block. */
  function BlockText(kind: BlockKind): string
  {
    match kind
    case Content(_, rt) => FlattenOptional(rt)
    case _ => ""
  }

  /**
   * extract_text_from_block: a text block gives its rich-text parts' plain texts laid end
   * to end (nothing without a `rich_text` key); a child page or child database gives "".
   */
  lemma BlockTextRule(kind: BlockKind)
    ensures kind.Content? && kind.richText.Some? ==>
      BlockText(kind) == Concat(seq(|kind.richText.value|, i requires 0 <= i < |kind.richText.value| => PlainText(kind.richText.value[i])))
    ensures kind.Content? && kind.richText.None? ==> BlockText(kind) == ""
    ensures !kind.Content? ==> BlockText(kind) == ""
  {
    if kind.Content? && kind.richText.Some? {
      FlattenIsConcat(kind.richText.value);
    }
  }
}
