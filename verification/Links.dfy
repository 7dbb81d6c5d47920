/** data/http.go: a query printed into a link (`GetUrlFromQuery`) and read back from it
    (`ParseQueryParameters`). */
module Links {
  import opened Wrappers
  import opened Validation
  import opened Text
  import opened Streams
  import Cursor
  import QueryWalk

  const DATA_API_LOC := "/data"
  const ID_SEPARATOR := ','

  const PARAM_PER_PAGE := "perPage"
  const PARAM_LIMIT := "limit"
  const PARAM_FROM := "from"
  const PARAM_TO := "to"
  const PARAM_SORT := "sort"
  const ASC := "asc"
  const DESC := "desc"

  /** Times as text: the format of RFC 3339 (section 5.6) in UTC, to the whole second. */
  datatype Clock = Clock(format: int -> string, parse: string -> Option<int>)

  predicate TimeChar(c: char) {
    IsDigit(c) || c == '-' || c == ':' || c == 'T' || c == 'Z'
  }

  /** What is assumed of the library: parsing undoes formatting, to the second. */
  ghost predicate Standard(clock: Clock) {
    forall t: int :: t >= 0 ==>
      && clock.parse(clock.format(t)) == Some(QueryWalk.Trunc(t))
      && clock.format(t) != ""
      && forall i :: 0 <= i < |clock.format(t)| ==> TimeChar(clock.format(t)[i])
  }

  // ---- Printing ----

  function Param(key: string, value: string): string {
    "&" + key + "=" + value
  }

  function SortName(q: Cursor.Query): string {
    if q.desc then DESC else ASC
  }

  function PerPageText(q: Cursor.Query): string {
    if q.perPage > 0 then Itoa(q.perPage) else ""
  }

  /** `GetUrlFromQuery`; the zero time is left out. */
  function UrlFromQuery(q: Cursor.Query, ids: seq<string>, clock: Clock): string {
    var sort := Param(PARAM_SORT, SortName(q));
    var limit := if q.limit > 0 then Param(PARAM_LIMIT, Itoa(q.limit)) else "";
    var start := if q.from != Cursor.ZERO_TIME then Param(PARAM_FROM, clock.format(q.from)) else "";
    var end := if q.to != Cursor.ZERO_TIME then Param(PARAM_TO, clock.format(q.to)) else "";
    var perPage := if q.perPage > 0 then Param(PARAM_PER_PAGE, PerPageText(q)) else "";
    Join(ids, ID_SEPARATOR) + "?" + perPage + sort + limit + start + end
  }

  function Link(q: Cursor.Query, ids: seq<string>, clock: Clock): string {
    DATA_API_LOC + "/" + UrlFromQuery(q, ids, clock)
  }

  // ---- Reading ----

  datatype ParseError = BadStart | BadEnd | EmptyRange | BadLimit | BadSort | BadPerPage

  /** `ParseQueryParameters`; no start is the zero time, and an open end is `now`. */
  function ParseQueryParameters(form: seq<string>, clock: Clock, now: int): Result<Cursor.Query, ParseError> {
    var fromText, toText := FormGet(form, PARAM_FROM), FormGet(form, PARAM_TO);
    var from := if fromText == "" then Some(Cursor.ZERO_TIME) else clock.parse(fromText);
    if from.None? then Failure(BadStart)
    else
      var to := if toText == "" then Some(now) else clock.parse(toText);
      if to.None? then Failure(BadEnd)
      else if to.value <= from.value then Failure(EmptyRange)
      else
        var limitText := FormGet(form, PARAM_LIMIT);
        var limit := if limitText == "" then Some(-1) else Atoi(limitText);
        if limit.None? then Failure(BadLimit)
        else
          var sort := FormGet(form, PARAM_SORT);
          if sort != "" && sort != ASC && sort != DESC then Failure(BadSort)
          else
            var perPageText := FormGet(form, PARAM_PER_PAGE);
            var perPage := if perPageText == "" then Some(QueryWalk.MAX_PER_PAGE) else Atoi(perPageText);
            if perPage.None? then Failure(BadPerPage)
            else Success(Cursor.Query(from.value, to.value, sort != ASC, limit.value, perPage.value))
  }

  /** The parameters of a request, one by one: what each reads as, what stands for one that is
      left out, and which error comes first when several are bad. */
  lemma ParametersAre(form: seq<string>, clock: Clock, now: int)
    ensures var from := FormGet(form, "from");
            var to := FormGet(form, "to");
            var limit := FormGet(form, "limit");
            var sort := FormGet(form, "sort");
            var perPage := FormGet(form, "perPage");
            var start := if from == "" then Some(Cursor.ZERO_TIME) else clock.parse(from);
            var end := if to == "" then Some(now) else clock.parse(to);
            var r := ParseQueryParameters(form, clock, now);
            if start.None? then r == Failure(BadStart)
            else if end.None? then r == Failure(BadEnd)
            else if start.value >= end.value then r == Failure(EmptyRange)
            else if limit != "" && Atoi(limit).None? then r == Failure(BadLimit)
            else if sort !in ["", "asc", "desc"] then r == Failure(BadSort)
            else if perPage != "" && Atoi(perPage).None? then r == Failure(BadPerPage)
            else
              && r.Success? && r.value.from == start.value && r.value.to == end.value
              && (sort == "" ==> r.value.desc) && (sort == "desc" ==> r.value.desc) && (sort == "asc" ==> !r.value.desc)
              && (if limit == "" then r.value.limit == -1 else Some(r.value.limit) == Atoi(limit))
              && (if perPage == "" then r.value.perPage == 1000 else Some(r.value.perPage) == Atoi(perPage))
  {
  }

  /** A request without parameters is answered with the newest records, the newest first, and with
      a link if there are more than a thousand. */
  lemma BareRequest(s: seq<Record>, clock: Clock, now: int)
    requires QueryWalk.Timed(s) && now >= 0 && forall i :: 0 <= i < |s| ==> s[i].time <= now
    ensures var q := ParseQueryParameters(Split("", '&'), clock, now);
            && q.Success?
            && var response := QueryWalk.Respond(s, q.value);
               && response.Page?
               && |response.records| == (if |s| < 1000 then |s| else 1000)
               && (forall i :: 0 <= i < |response.records| ==> response.records[i] == s[|s| - 1 - i])
               && (response.next.Some? <==> |s| > 1000)
  {
    assert ParseField("").None?;
    assert Split("", '&')[1..] == [];
    ParametersAre(Split("", '&'), clock, now);
    var q := Cursor.Query(Cursor.ZERO_TIME, now, true, -1, 1000);
    assert ParseQueryParameters(Split("", '&'), clock, now) == Success(q);
    QueryWalk.ResponseIsFirstPage(s, q);
    QueryWalk.ServedAt(s, q);
    Cursor.LowerIs(s, q.from, 0);
    Cursor.LowerIs(s, now + 1, |s|);
    QueryWalk.StartsInRangeIs(s, q);
  }

  datatype Request = Request(ids: seq<string>, query: Result<Cursor.Query, ParseError>)

  /** A link as the handler receives it: the ids of the path, and the query. */
  function ReadLink(link: string, clock: Clock, now: int): Request {
    var i := IndexOf(link, '?');
    var prefix := |DATA_API_LOC| + 1;
    var path := if prefix <= i then link[prefix..i] else "";
    var form := Split(if i < |link| then link[i + 1..] else "", '&');
    Request(Split(path, ID_SEPARATOR), ParseQueryParameters(form, clock, now))
  }

  // ---- Reading what was printed ----

  /** Text without the characters that separate or escape. */
  ghost predicate Plain(s: string) {
    forall i :: 0 <= i < |s| ==> s[i] != '&' && s[i] != '=' && s[i] != '%' && s[i] != '+'
  }

  function Printed(fields: seq<Field>): string
    decreases |fields|
  {
    if fields == [] then "" else Param(fields[0].key, fields[0].value) + Printed(fields[1..])
  }

  function Value(fields: seq<Field>, key: string): string
    decreases |fields|
  {
    if fields == [] then "" else if fields[0].key == key then fields[0].value else Value(fields[1..], key)
  }

  ghost predicate PlainFields(fields: seq<Field>) {
    forall i :: 0 <= i < |fields| ==> fields[i].key != "" && Plain(fields[i].key) && Plain(fields[i].value)
  }

  lemma ParsePlain(f: Field)
    requires f.key != "" && Plain(f.key) && Plain(f.value)
    ensures ParseField(f.key + "=" + f.value) == Some(f)
  {
    var piece := f.key + "=" + f.value;
    IndexIsHead(f.key, f.value, '=');
    assert piece[..|f.key|] == f.key && piece[|f.key| + 1..] == f.value;
    UnescapePlain(f.key);
    UnescapePlain(f.value);
  }

  /** Splitting the printed fields gives an empty piece and then each field. */
  lemma {:induction false} ReadFields(first: string, fields: seq<Field>, key: string)
    requires PlainFields(fields) && '&' !in first
    ensures var pieces := Split(first + Printed(fields), '&');
            pieces[0] == first && FormGet(pieces[1..], key) == Value(fields, key)
    decreases |fields|
  {
    if fields == [] {
      assert first + Printed(fields) == first;
      SplitWhole(first, '&');
    } else {
      var f := fields[0];
      var piece := f.key + "=" + f.value;
      assert '&' !in piece;
      assert first + Printed(fields) == first + ['&'] + (piece + Printed(fields[1..]));
      SplitHead(first, piece + Printed(fields[1..]), '&');
      assert PlainFields(fields[1..]);
      ReadFields(piece, fields[1..], key);
      ParsePlain(f);
    }
  }

  lemma ReadForm(fields: seq<Field>, key: string)
    requires PlainFields(fields)
    ensures FormGet(Split(Printed(fields), '&'), key) == Value(fields, key)
  {
    ReadFields("", fields, key);
    assert "" + Printed(fields) == Printed(fields);
    assert ParseField("") == None;
  }

  function Optional(present: bool, f: Field, rest: seq<Field>): seq<Field> {
    if present then [f] + rest else rest
  }

  lemma OptionalField(present: bool, f: Field, rest: seq<Field>)
    ensures Printed(Optional(present, f, rest)) == (if present then Param(f.key, f.value) else "") + Printed(rest)
    ensures forall key :: Value(Optional(present, f, rest), key) == if present && f.key == key then f.value else Value(rest, key)
  {
  }

  /** The fields of a printed query from the end on, in the order they are printed. */
  function EndField(q: Cursor.Query, clock: Clock): seq<Field> {
    Optional(q.to != Cursor.ZERO_TIME, Field(PARAM_TO, clock.format(q.to)), [])
  }

  function StartField(q: Cursor.Query, clock: Clock): seq<Field> {
    Optional(q.from != Cursor.ZERO_TIME, Field(PARAM_FROM, clock.format(q.from)), EndField(q, clock))
  }

  function LimitField(q: Cursor.Query, clock: Clock): seq<Field> {
    Optional(q.limit > 0, Field(PARAM_LIMIT, if q.limit > 0 then Itoa(q.limit) else ""), StartField(q, clock))
  }

  function SortField(q: Cursor.Query, clock: Clock): seq<Field> {
    Optional(true, Field(PARAM_SORT, SortName(q)), LimitField(q, clock))
  }

  function FieldsOf(q: Cursor.Query, clock: Clock): seq<Field>
  {
    Optional(q.perPage > 0, Field(PARAM_PER_PAGE, PerPageText(q)), SortField(q, clock))
  }

  /** Each parameter reads back as what was printed for it. */
  lemma FieldValues(q: Cursor.Query, clock: Clock)
    ensures var fields := FieldsOf(q, clock);
            && Value(fields, PARAM_PER_PAGE) == PerPageText(q)
            && Value(fields, PARAM_SORT) == SortName(q)
            && Value(fields, PARAM_LIMIT) == (if q.limit > 0 then Itoa(q.limit) else "")
            && Value(fields, PARAM_FROM) == (if q.from != Cursor.ZERO_TIME then clock.format(q.from) else "")
            && Value(fields, PARAM_TO) == (if q.to != Cursor.ZERO_TIME then clock.format(q.to) else "")
  {
    OptionalField(q.to != Cursor.ZERO_TIME, Field(PARAM_TO, clock.format(q.to)), []);
    OptionalField(q.from != Cursor.ZERO_TIME, Field(PARAM_FROM, clock.format(q.from)), EndField(q, clock));
    OptionalField(q.limit > 0, Field(PARAM_LIMIT, if q.limit > 0 then Itoa(q.limit) else ""), StartField(q, clock));
    OptionalField(true, Field(PARAM_SORT, SortName(q)), LimitField(q, clock));
    OptionalField(q.perPage > 0, Field(PARAM_PER_PAGE, PerPageText(q)), SortField(q, clock));
    DistinctKeys();
  }

  lemma DistinctKeys()
    ensures PARAM_PER_PAGE != PARAM_SORT && PARAM_PER_PAGE != PARAM_LIMIT && PARAM_PER_PAGE != PARAM_FROM && PARAM_PER_PAGE != PARAM_TO
    ensures PARAM_SORT != PARAM_LIMIT && PARAM_SORT != PARAM_FROM && PARAM_SORT != PARAM_TO
    ensures PARAM_LIMIT != PARAM_FROM && PARAM_LIMIT != PARAM_TO && PARAM_FROM != PARAM_TO
  {
  }

  /** The printed URL is the ids, a question mark and the printed fields. */
  lemma UrlIsFields(q: Cursor.Query, ids: seq<string>, clock: Clock)
    ensures UrlFromQuery(q, ids, clock) == Join(ids, ID_SEPARATOR) + ['?'] + Printed(FieldsOf(q, clock))
  {
    OptionalField(q.to != Cursor.ZERO_TIME, Field(PARAM_TO, clock.format(q.to)), []);
    OptionalField(q.from != Cursor.ZERO_TIME, Field(PARAM_FROM, clock.format(q.from)), EndField(q, clock));
    OptionalField(q.limit > 0, Field(PARAM_LIMIT, if q.limit > 0 then Itoa(q.limit) else ""), StartField(q, clock));
    OptionalField(true, Field(PARAM_SORT, SortName(q)), LimitField(q, clock));
    OptionalField(q.perPage > 0, Field(PARAM_PER_PAGE, PerPageText(q)), SortField(q, clock));
    Regroup(
      Join(ids, ID_SEPARATOR) + "?",
      if q.perPage > 0 then Param(PARAM_PER_PAGE, PerPageText(q)) else "",
      Param(PARAM_SORT, SortName(q)),
      if q.limit > 0 then Param(PARAM_LIMIT, Itoa(q.limit)) else "",
      if q.from != Cursor.ZERO_TIME then Param(PARAM_FROM, clock.format(q.from)) else "",
      if q.to != Cursor.ZERO_TIME then Param(PARAM_TO, clock.format(q.to)) else "");
  }

  lemma Regroup(x: string, a: string, b: string, c: string, d: string, e: string)
    ensures x + a + b + c + d + e == x + (a + (b + (c + (d + (e + "")))))
  {
    assert e + "" == e;
    Associate(x + a + b + c, d, e);
    Associate(x + a + b, c, d + e);
    Associate(x + a, b, c + (d + e));
    Associate(x, a, b + (c + (d + e)));
  }

  lemma Associate(x: string, y: string, z: string)
    ensures x + y + z == x + (y + z)
  {
  }

  lemma OptionalPlain(present: bool, f: Field, rest: seq<Field>)
    requires PlainFields(rest) && (present ==> f.key != "" && Plain(f.key) && Plain(f.value))
    ensures PlainFields(Optional(present, f, rest))
  {
  }

  lemma TimeIsPlain(clock: Clock, t: int)
    requires Standard(clock) && t >= 0
    ensures Plain(clock.format(t)) && clock.format(t) != "" && clock.parse(clock.format(t)) == Some(QueryWalk.Trunc(t))
  {
  }

  lemma NumberIsPlain(n: nat)
    ensures Plain(Itoa(n)) && Itoa(n) != "" && Atoi(Itoa(n)) == Some(n)
  {
    AtoiOfItoa(n);
    assert forall i :: 0 <= i < |Itoa(n)| ==> IsDigit(Itoa(n)[i]);
  }

  lemma KeysArePlain()
    ensures Plain(PARAM_PER_PAGE) && Plain(PARAM_LIMIT) && Plain(PARAM_FROM) && Plain(PARAM_TO) && Plain(PARAM_SORT)
    ensures Plain(ASC) && Plain(DESC)
  {
  }

  /** No printed field needs escaping. */
  lemma PrintedPlain(q: Cursor.Query, clock: Clock)
    requires Standard(clock) && QueryWalk.Plain(q)
    ensures PlainFields(FieldsOf(q, clock))
  {
    KeysArePlain();
    if q.from >= 0 {
      TimeIsPlain(clock, q.from);
    }
    TimeIsPlain(clock, q.to);
    if q.perPage > 0 {
      NumberIsPlain(q.perPage);
    }
    if q.limit > 0 {
      NumberIsPlain(q.limit);
    }
    OptionalPlain(q.to != Cursor.ZERO_TIME, Field(PARAM_TO, clock.format(q.to)), []);
    OptionalPlain(q.from != Cursor.ZERO_TIME, Field(PARAM_FROM, clock.format(q.from)), EndField(q, clock));
    OptionalPlain(q.limit > 0, Field(PARAM_LIMIT, if q.limit > 0 then Itoa(q.limit) else ""), StartField(q, clock));
    OptionalPlain(true, Field(PARAM_SORT, SortName(q)), LimitField(q, clock));
    OptionalPlain(q.perPage > 0, Field(PARAM_PER_PAGE, PerPageText(q)), SortField(q, clock));
  }

  /** Parameters that read as those of a query, at whole seconds. */
  lemma ParsesAs(form: seq<string>, clock: Clock, now: int, r: Cursor.Query)
    requires clock.parse(FormGet(form, PARAM_TO)) == Some(r.to) && FormGet(form, PARAM_TO) != ""
    requires if r.from == Cursor.ZERO_TIME then FormGet(form, PARAM_FROM) == ""
             else FormGet(form, PARAM_FROM) != "" && clock.parse(FormGet(form, PARAM_FROM)) == Some(r.from)
    requires FormGet(form, PARAM_SORT) == SortName(r)
    requires if r.limit > 0 then FormGet(form, PARAM_LIMIT) != "" && Atoi(FormGet(form, PARAM_LIMIT)) == Some(r.limit)
             else r.limit == -1 && FormGet(form, PARAM_LIMIT) == ""
    requires if FormGet(form, PARAM_PER_PAGE) == "" then r.perPage == QueryWalk.MAX_PER_PAGE
             else Atoi(FormGet(form, PARAM_PER_PAGE)) == Some(r.perPage)
    ensures ParseQueryParameters(form, clock, now) == if r.from < r.to then Success(r) else Failure(EmptyRange)
  {
    KeysArePlain();
    assert |ASC| == 3 && |DESC| == 4;
  }

  /** Parsing the printed fields gives the query that QueryWalk follows a link with, or
      refuses the range that printing to the second has emptied. */
  lemma FormRoundTrip(q: Cursor.Query, clock: Clock, now: int)
    requires Standard(clock) && QueryWalk.Plain(q) && q.from < q.to
    ensures var r := QueryWalk.Relinked(q);
            ParseQueryParameters(Split(Printed(FieldsOf(q, clock)), '&'), clock, now)
            == if r.from < r.to then Success(r) else Failure(EmptyRange)
  {
    var fields := FieldsOf(q, clock);
    PrintedPlain(q, clock);
    ReadForm(fields, PARAM_FROM);
    ReadForm(fields, PARAM_TO);
    ReadForm(fields, PARAM_LIMIT);
    ReadForm(fields, PARAM_SORT);
    ReadForm(fields, PARAM_PER_PAGE);
    FieldValues(q, clock);
    QueryWalk.TruncBounds(q.from);
    QueryWalk.TruncBounds(q.to);
    if q.from >= 0 {
      TimeIsPlain(clock, q.from);
    }
    TimeIsPlain(clock, q.to);
    if q.perPage > 0 {
      NumberIsPlain(q.perPage);
    }
    if q.limit > 0 {
      NumberIsPlain(q.limit);
    }
    ParsesAs(Split(Printed(fields), '&'), clock, now, QueryWalk.Relinked(q));
  }

  /** A registered name holds none of the characters that delimit the ids of a link. */
  lemma NamesDoNotSeparate(name: string)
    requires ValidName(name)
    ensures ID_SEPARATOR !in name && '?' !in name && '&' !in name && '%' !in name
  {
  }

  lemma {:induction false} JoinWithout(parts: seq<string>, sep: char, c: char)
    requires c != sep && forall p :: p in parts ==> c !in p
    ensures c !in Join(parts, sep)
    decreases |parts|
  {
    if |parts| > 0 {
      assert parts[0] in parts;
      if |parts| > 1 {
        JoinWithout(parts[1..], sep, c);
      }
    }
  }

  /** A printed link reads back as the same ids and as the query at whole seconds (with no
      limit in place of one that is not positive); it is refused exactly when printing to the
      second has left no time between start and end. */
  lemma LinkRoundTrip(q: Cursor.Query, ids: seq<string>, clock: Clock, now: int)
    requires Standard(clock) && QueryWalk.Plain(q) && q.from < q.to
    requires ids != [] && forall id :: id in ids ==> ValidName(id)
    ensures var r := QueryWalk.Relinked(q);
            ReadLink(Link(q, ids, clock), clock, now)
            == Request(ids, if r.from < r.to then Success(r) else Failure(EmptyRange))
  {
    forall id | id in ids ensures ID_SEPARATOR !in id && '?' !in id {
      NamesDoNotSeparate(id);
    }
    var path, form := Join(ids, ID_SEPARATOR), Printed(FieldsOf(q, clock));
    JoinWithout(ids, ID_SEPARATOR, '?');
    UrlIsFields(q, ids, clock);
    ReadParts(path, form, clock, now);
    SplitJoin(ids, ID_SEPARATOR);
    FormRoundTrip(q, clock, now);
  }

  lemma ReadParts(path: string, form: string, clock: Clock, now: int)
    requires '?' !in path
    ensures ReadLink(DATA_API_LOC + "/" + (path + ['?'] + form), clock, now)
         == Request(Split(path, ID_SEPARATOR), ParseQueryParameters(Split(form, '&'), clock, now))
  {
    var head := DATA_API_LOC + "/" + path;
    var link := head + ['?'] + form;
    assert link == DATA_API_LOC + "/" + (path + ['?'] + form);
    IndexIsHead(head, form, '?');
    assert link[|DATA_API_LOC| + 1..|head|] == path;
    assert link[|head| + 1..] == form;
  }

  lemma LinkText(x: string, a: string, y: string, b: string, z: string, form: string)
    ensures x + a + y + b + z + form == x + ((a + y + b) + z + form)
  {
  }

  /** A link of two ids and a form, character for character. */
  lemma LinkOfTwo(a: string, b: string, form: string, clock: Clock, now: int)
    requires ValidName(a) && ValidName(b)
    ensures ReadLink("/data/" + a + "," + b + "?" + form, clock, now)
         == Request([a, b], ParseQueryParameters(Split(form, '&'), clock, now))
  {
    var path := a + "," + b;
    assert "/data/" + a + "," + b + "?" + form == DATA_API_LOC + "/" + (path + "?" + form) by {
      assert DATA_API_LOC + "/" == "/data/";
      LinkText("/data/", a, ",", b, "?", form);
    }
    assert Split(path, ID_SEPARATOR) == [a, b] by {
      NamesDoNotSeparate(a);
      NamesDoNotSeparate(b);
      SplitHead(a, b, ',');
      SplitWhole(b, ',');
    }
    PathHasNoQuestion(a, b);
    ReadParts(path, form, clock, now);
  }

  lemma PathHasNoQuestion(a: string, b: string)
    requires ValidName(a) && ValidName(b)
    ensures '?' !in a + "," + b
  {
    NamesDoNotSeparate(a);
    NamesDoNotSeparate(b);
  }
}
