/**
 * The Schema Registry client of kafka-avro: one fetch cycle that expands the
 * selected topics into subject names, asks a Confluent Schema Registry for the
 * latest version of every subject, fetches and parses each schema, publishes
 * the parsed types into the client's caches and, when asked to, does the same
 * for every historical version.
 *
 * HTTP is a `Server` value (what each GET would answer), avsc's `avro.parse`
 * is a `Parser` function, and bluebird's order-preserving `map` is a
 * sequential loop that stops at the first rejection.
 */
module SchemaRegistry {
  import opened Base

  // ---------------------------------------------------------------------
  // Parsed Avro types and the parser (avsc is a foreign library)
  // ---------------------------------------------------------------------

  /** Everything avsc builds for a schema apart from its name; never inspected here. */
  type AvroDefinition(==)

  /** A parsed Avro type; `name` is `None` for unnamed types (primitives, arrays, ...). */
  datatype AvroType = AvroType(name: Option<string>, definition: AvroDefinition)

  /** The `registry` entry of avsc's parse options, as `typeof` classifies it. */
  datatype TypeRegistry =
    | NoRegistry                              // undefined, or not of type 'object'
    | NullRegistry                            // null, whose typeof is 'object' as well
    | Registry(types: map<string, AvroType>)  // an object holding named types

  datatype ParseOptions = ParseOptions(wrapUnions: bool, registry: TypeRegistry)

  /** Parse options as a caller passes them; `wrapUnions` may be left undefined. */
  datatype UserParseOptions = UserParseOptions(wrapUnions: Option<bool>, registry: TypeRegistry)

  datatype ParseResult = Parsed(avroType: AvroType) | Threw

  /** avsc's `avro.parse(schema)` (options `None`) and `avro.parse(schema, options)`. */
  type Parser = (string, Option<ParseOptions>) -> ParseResult

  /** The options `_registerSchemaLatest` parses with: `{wrapUnions: true}`, no registry. */
  const LatestParseOptions := ParseOptions(true, NoRegistry)

  /** The constructor's defaulting of `parseOptions`: `{}` when absent, `wrapUnions` true when undefined. */
  function WithParseDefaults(given: Option<UserParseOptions>): (r: ParseOptions)
    ensures given.None? ==> r == ParseOptions(true, NoRegistry)
    ensures given.Some? ==> r.registry == given.value.registry
    ensures given.Some? ==> (r.wrapUnions <==> given.value.wrapUnions != Some(false))
  {
    match given
    case None => ParseOptions(true, NoRegistry)
    case Some(o) => ParseOptions(if o.wrapUnions.Some? then o.wrapUnions.value else true, o.registry)
  }

  /** The property name JavaScript uses for `registry[type.name]`; an undefined name becomes "undefined". */
  function RegistryKey(name: Option<string>): (r: string)
    ensures name.Some? ==> r == name.value
    ensures name.None? ==> r == "undefined"
  {
    match name
    case Some(n) => n
    case None => "undefined"
  }

  /** Two names share a registry entry exactly when they are equal, or one is undefined and the other is "undefined". */
  lemma RegistryKeysCollide(a: Option<string>, b: Option<string>)
    ensures RegistryKey(a) == RegistryKey(b) <==>
      a == b || (a == None && b == Some("undefined")) || (a == Some("undefined") && b == None)
  {
  }

  /**
   * `typeFromSchemaResponse`: parse once without options to learn the name; if
   * the options carry a registry object that already holds a type under that
   * name, return the stored type, otherwise parse again with the options.
   */
  function TypeFromSchemaResponse(parse: Parser, schema: string, options: ParseOptions): (r: ParseResult)
    ensures parse(schema, None).Threw? ==> r.Threw?
    ensures parse(schema, None).Parsed? && options.registry.Registry? &&
            RegistryKey(parse(schema, None).avroType.name) in options.registry.types ==>
              r == Parsed(options.registry.types[RegistryKey(parse(schema, None).avroType.name)])
    ensures parse(schema, None).Parsed? && options.registry.NullRegistry? ==> r.Threw?
    ensures parse(schema, None).Parsed? && options.registry.NoRegistry? ==> r == parse(schema, Some(options))
    ensures parse(schema, None).Parsed? && options.registry.Registry? &&
            RegistryKey(parse(schema, None).avroType.name) !in options.registry.types ==>
              r == parse(schema, Some(options))
  {
    match parse(schema, None)
    case Threw => Threw
    case Parsed(first) =>
      match options.registry
      case NullRegistry => Threw  // null[name] throws a TypeError
      case Registry(types) =>
        if RegistryKey(first.name) in types then Parsed(types[RegistryKey(first.name)])
        else parse(schema, Some(options))
      case NoRegistry => parse(schema, Some(options))
  }

  // ---------------------------------------------------------------------
  // Subject names
  // ---------------------------------------------------------------------

  /** `_processSelectedTopics` as a value: `<topic>-value` then `<topic>-key`, topic by topic. */
  function Subjects(topics: seq<string>): (r: seq<string>)
    ensures |r| == 2 * |topics|
    ensures forall i :: 0 <= i < |topics| ==> r[2 * i] == topics[i] + "-value" && r[2 * i + 1] == topics[i] + "-key"
  {
    if topics == [] then []
    else Subjects(topics[..|topics| - 1]) + [topics[|topics| - 1] + "-value", topics[|topics| - 1] + "-key"]
  }

  /** `subject.split('-')`: the maximal dash-free pieces, in order. */
  function Split(s: string): (parts: seq<string>)
    ensures |parts| >= 1
    ensures forall i :: 0 <= i < |parts| ==> '-' !in parts[i]
    ensures |parts| >= 2 <==> '-' in s
  {
    if s == [] then [""]
    else
      var rest := Split(s[1..]);
      assert '-' in s <==> s[0] == '-' || '-' in s[1..] by {
        assert s == [s[0]] + s[1..];
      }
      if s[0] == '-' then [""] + rest
      else [[s[0]] + rest[0]] + rest[1..]
  }

  /** `parts.join('-')`; the join of no parts is the empty string. */
  function Join(parts: seq<string>): (r: string)
    ensures |parts| >= 1 ==> parts[0] <= r
    ensures |parts| >= 2 ==> |parts[0]| < |r| && r[|parts[0]|] == '-'
  {
    if parts == [] then ""
    else if |parts| == 1 then parts[0]
    else parts[0] + "-" + Join(parts[1..])
  }

  lemma {:induction false} JoinSplit(s: string)
    ensures Join(Split(s)) == s
  {
    if s != [] {
      var rest := Split(s[1..]);
      JoinSplit(s[1..]);
      if s[0] == '-' {
        assert Split(s) == [""] + rest;
        assert ([""] + rest)[1..] == rest;
      } else {
        var parts := [[s[0]] + rest[0]] + rest[1..];
        assert Split(s) == parts;
        if |rest| == 1 {
          assert Join(parts) == [s[0]] + rest[0];
        } else {
          assert parts[1..] == rest[1..];
          assert Join(rest) == rest[0] + "-" + Join(rest[1..]);
          assert Join(parts) == [s[0]] + rest[0] + "-" + Join(rest[1..]);
        }
      }
    }
  }

  /** Proof helper: a dash-free prefix extends the first piece of the split. */
  lemma {:induction false} SplitPrefix(w: string, s: string)
    requires '-' !in w
    ensures Split(w + s) == [w + Split(s)[0]] + Split(s)[1..]
    decreases |w|
  {
    if w == [] {
      assert w + s == s;
      assert w + Split(s)[0] == Split(s)[0];
      assert [Split(s)[0]] + Split(s)[1..] == Split(s);
    } else {
      assert (w + s)[0] == w[0] && (w + s)[1..] == w[1..] + s;
      SplitPrefix(w[1..], s);
      assert [w[0]] + (w[1..] + Split(s)[0]) == w + Split(s)[0];
    }
  }

  /** Proof helper: a leading dash starts a new, empty piece. */
  lemma SplitDash(x: string)
    ensures Split("-" + x) == [""] + Split(x)
  {
    var t := "-" + x;
    assert t[0] == '-' && t[1..] == x;
  }

  /** Splitting the join of dash-free parts gives the parts back. */
  lemma {:induction false} SplitJoin(parts: seq<string>)
    requires |parts| >= 1
    requires forall i :: 0 <= i < |parts| ==> '-' !in parts[i]
    ensures Split(Join(parts)) == parts
  {
    var first := parts[0];
    assert '-' !in first;
    if |parts| == 1 {
      SplitPrefix(first, "");
      assert first + "" == first;
    } else {
      var rest := parts[1..];
      assert forall i :: 0 <= i < |rest| ==> rest[i] == parts[i + 1];
      SplitJoin(rest);
      SplitDash(Join(rest));
      var t := "-" + Join(rest);
      assert Join(parts) == first + t;
      SplitPrefix(first, t);
      assert first + "" == first;
      assert parts == [first] + rest;
    }
  }

  lemma {:induction false} JoinSnoc(parts: seq<string>, last: string)
    requires |parts| >= 1
    ensures Join(parts + [last]) == Join(parts) + "-" + last
  {
    if |parts| == 1 {
      assert (parts + [last])[1..] == [last];
    } else {
      assert (parts + [last])[1..] == parts[1..] + [last];
      JoinSnoc(parts[1..], last);
    }
  }

  datatype SubjectParts = SubjectParts(topic: string, schemaType: string)

  /**
   * The subject split of `_fetchSchema`: the text after the last dash is the
   * role suffix, the rest rejoined with dashes is the topic.
   */
  function SplitSubject(subject: string): (r: SubjectParts)
    ensures '-' !in r.schemaType
    ensures '-' in subject ==> r.topic + "-" + r.schemaType == subject
    ensures '-' !in subject ==> r.topic == "" && r.schemaType == subject
  {
    var parts := Split(subject);
    var n := |parts|;
    JoinSplit(subject);
    assert parts == parts[..n - 1] + [parts[n - 1]];
    if n >= 2 then
      JoinSnoc(parts[..n - 1], parts[n - 1]);
      SubjectParts(Join(parts[..n - 1]), parts[n - 1])
    else
      SubjectParts(Join(parts[..n - 1]), parts[n - 1])
  }

  /** `String.prototype.toLowerCase` on the characters that can matter for a comparison with "value". */
  function LowerAscii(c: char): char
  {
    if 'A' <= c <= 'Z' then (c as int + 32) as char else c
  }

  function ToLower(s: string): (r: string)
    ensures |r| == |s|
    ensures forall i :: 0 <= i < |s| ==> r[i] == LowerAscii(s[i])
  {
    if s == [] then [] else [LowerAscii(s[0])] + ToLower(s[1..])
  }

  /** `schemaType.toLowerCase() === 'value'`; every other suffix is treated as a key. */
  function IsValueRole(schemaType: string): (r: bool)
    ensures r <==> |schemaType| == 5 && forall i :: 0 <= i < 5 ==> LowerAscii(schemaType[i]) == "value"[i]
  {
    ToLower(schemaType) == "value"
  }

  lemma RoleExamples()
    ensures IsValueRole("value") && IsValueRole("VALUE") && IsValueRole("Value")
    ensures !IsValueRole("key") && !IsValueRole("values") && !IsValueRole("")
  {
    assert ToLower("VALUE") == "value";
    assert ToLower("Value") == "value";
  }

  // ---------------------------------------------------------------------
  // Numbers as JavaScript prints them (for the "schema-<id>" keys)
  // ---------------------------------------------------------------------

  function DigitChar(d: nat): char
    requires d < 10
  {
    "0123456789"[d]
  }

  function Digits(n: nat): (r: string)
    ensures |r| >= 1
    ensures |r| == 1 <==> n < 10
    ensures forall i :: 0 <= i < |r| ==> '0' <= r[i] <= '9'
    decreases n
  {
    if n < 10 then [DigitChar(n)] else Digits(n / 10) + [DigitChar(n % 10)]
  }

  /** `'' + n` for an integer `n`. */
  function NumberToString(n: int): (r: string)
    ensures |r| >= 1
    ensures r[0] == '-' <==> n < 0
    ensures n < 0 ==> |r| >= 2 && forall i :: 1 <= i < |r| ==> '0' <= r[i] <= '9'
    ensures n >= 0 ==> forall i :: 0 <= i < |r| ==> '0' <= r[i] <= '9'
  {
    if n < 0 then "-" + Digits(-n) else Digits(n)
  }

  /** The key of `schemaTypeById`: `'schema-' + id`. */
  function IdKey(id: int): (r: string)
    ensures |r| >= 8 && r[..7] == "schema-"
    ensures r[7] == '-' <==> id < 0
  {
    "schema-" + NumberToString(id)
  }

  lemma {:induction false} DigitsInjective(a: nat, b: nat)
    requires Digits(a) == Digits(b)
    ensures a == b
    decreases a
  {
    var da, db := Digits(a), Digits(b);
    if a < 10 {
      assert "0123456789"[a] == da[0] == db[0] == "0123456789"[b];
    } else {
      assert da[|da| - 1] == db[|db| - 1];
      assert DigitChar(a % 10) == DigitChar(b % 10);
      assert da[..|da| - 1] == Digits(a / 10);
      assert db[..|db| - 1] == Digits(b / 10);
      DigitsInjective(a / 10, b / 10);
    }
  }

  /** Different integers print differently. */
  lemma NumberToStringInjective(a: int, b: int)
    requires NumberToString(a) == NumberToString(b)
    ensures a == b
  {
    var sa, sb := NumberToString(a), NumberToString(b);
    assert a < 0 <==> b < 0;
    if a < 0 {
      assert sa == "-" + Digits(-a) && sb == "-" + Digits(-b);
      assert sa[1..] == Digits(-a) && sb[1..] == Digits(-b);
      DigitsInjective(-a, -b);
    } else {
      assert sa == Digits(a) && sb == Digits(b);
      DigitsInjective(a, b);
    }
  }

  /** Distinct registry ids never share a `schemaTypeById` key. */
  lemma IdKeyInjective(a: int, b: int)
    requires IdKey(a) == IdKey(b)
    ensures a == b
  {
    assert IdKey(a)[7..] == NumberToString(a);
    assert IdKey(b)[7..] == NumberToString(b);
    NumberToStringInjective(a, b);
  }

  // ---------------------------------------------------------------------
  // HTTP results and the two axios error handlers
  // ---------------------------------------------------------------------

  /** An axios failure: with a `response` (4xx/5xx) or without one (network level). */
  datatype HttpError = ResponseError(status: int) | NoResponse

  datatype HttpResult<T> = Ok(data: T) | Failed(error: HttpError)

  /** Why a promise rejects: an HTTP failure passed on, or a TypeError raised by the code itself. */
  datatype Failure = HttpFailure(httpError: HttpError) | TypeError

  /** What a promise settles to after a `.catch` handler ran. */
  datatype Caught<T> = Returned(value: T) | Rethrown(failure: Failure)

  /** `_suppressAxiosError`, run with the registry as `this`: an error with a response becomes null. */
  function SuppressAxiosError<T>(e: HttpError): (r: Caught<Option<T>>)
    ensures r.Returned? <==> e.ResponseError?
    ensures r.Returned? ==> r.value == None
    ensures r.Rethrown? ==> r.failure == HttpFailure(e)
  {
    if e.ResponseError? then Returned(None) else Rethrown(HttpFailure(e))
  }

  /**
   * `_suppressAxiosError` passed to `.catch` of a promise that is not bound to
   * the registry: `this` is the global object, so for an error with a
   * response the `this.log.debug(...)` call throws a TypeError.
   */
  function SuppressAxiosErrorUnbound<T>(e: HttpError): (r: Caught<Option<T>>)
    ensures r.Rethrown?
    ensures e.ResponseError? ==> r.failure == TypeError
    ensures e.NoResponse? ==> r.failure == HttpFailure(e)
  {
    if e.ResponseError? then Rethrown(TypeError) else Rethrown(HttpFailure(e))
  }

  /** `_handleAxiosError`: both of its branches rethrow. */
  function HandleAxiosError<T>(e: HttpError): (r: Caught<T>)
    ensures r.Rethrown? && r.failure == HttpFailure(e)
  {
    Rethrown(HttpFailure(e))
  }

  // ---------------------------------------------------------------------
  // The registry service and the fetch stages
  // ---------------------------------------------------------------------

  /** The body of `GET subjects/{subject}/versions/{version}`. */
  datatype SchemaResponse = SchemaResponse(version: int, id: int, schema: string)

  /** What the registry answers to each GET the client issues. */
  datatype Server = Server(
    subjects: HttpResult<seq<string>>,              // GET subjects
    latest: string -> HttpResult<int>,              // GET subjects/{s}/versions/latest (its version)
    versions: string -> HttpResult<seq<int>>,       // GET subjects/{s}/versions
    schemaAt: (string, int) -> HttpResult<SchemaResponse>)  // GET subjects/{s}/versions/{v}

  datatype TopicMeta = TopicMeta(version: int, schemaTopic: string)

  /** The object `_fetchSchema` builds; `avroType` is the `type` property registration adds. */
  datatype SchemaObj = SchemaObj(
    version: int,
    responseRaw: SchemaResponse,
    schemaType: string,
    schemaTopicRaw: string,
    topic: string,
    avroType: Option<AvroType>)

  /** `_fetchAllSchemaTopics` (its promise is bound, so suppression works): null for an error with a response. */
  function FetchAllSchemaTopics(server: Server): (r: Caught<Option<seq<string>>>)
    ensures server.subjects.Ok? ==> r == Returned(Some(server.subjects.data))
    ensures server.subjects.Failed? ==> r == SuppressAxiosError(server.subjects.error)
  {
    match server.subjects
    case Ok(names) => Returned(Some(names))
    case Failed(e) => SuppressAxiosError(e)
  }

  /** `_fetchTopics`: the selected topics expanded when a selection is given, every subject otherwise. */
  function FetchTopics(selectedTopics: Option<seq<string>>, server: Server): (r: Caught<Option<seq<string>>>)
    ensures selectedTopics.Some? ==> r == Returned(Some(Subjects(selectedTopics.value)))
    ensures selectedTopics.None? ==> r == FetchAllSchemaTopics(server)
  {
    if selectedTopics.Some? then Returned(Some(Subjects(selectedTopics.value)))
    else FetchAllSchemaTopics(server)
  }

  /** `_fetchLatestVersion` with its error handler bound to the registry, as the handler is written to run. */
  function FetchLatestVersion(server: Server, subject: string): (r: Caught<Option<TopicMeta>>)
    ensures r == Returned(None) <==> server.latest(subject).Failed? && server.latest(subject).error.ResponseError?
    ensures r.Rethrown? <==> server.latest(subject) == Failed(NoResponse)
    ensures r.Rethrown? ==> r.failure == HttpFailure(NoResponse)
    ensures server.latest(subject).Ok? ==> r == Returned(Some(TopicMeta(server.latest(subject).data, subject)))
  {
    match server.latest(subject)
    case Ok(version) => Returned(Some(TopicMeta(version, subject)))
    case Failed(e) => SuppressAxiosError(e)
  }

  /** `_fetchLatestVersion` as written: the `.catch` at the end of an unbound promise chain. */
  function FetchLatestVersionAsWritten(server: Server, subject: string): (r: Caught<Option<TopicMeta>>)
    ensures r.Rethrown? <==> server.latest(subject).Failed?
    ensures server.latest(subject).Failed? && server.latest(subject).error.ResponseError? ==> r == Rethrown(TypeError)
    ensures !(server.latest(subject).Failed? && server.latest(subject).error.ResponseError?) ==>
      r == FetchLatestVersion(server, subject)
  {
    match server.latest(subject)
    case Ok(version) => Returned(Some(TopicMeta(version, subject)))
    case Failed(e) => SuppressAxiosErrorUnbound(e)
  }

  /** `_fetchAllSchemaVersions` with its error handler bound to the registry. */
  function FetchAllSchemaVersions(server: Server, subject: string): (r: Caught<Option<seq<TopicMeta>>>)
    ensures r == Returned(None) <==> server.versions(subject).Failed? && server.versions(subject).error.ResponseError?
    ensures r.Rethrown? <==> server.versions(subject) == Failed(NoResponse)
    ensures r.Rethrown? ==> r.failure == HttpFailure(NoResponse)
    ensures server.versions(subject).Ok? ==>
      r.Returned? && r.value.Some? && |r.value.value| == |server.versions(subject).data| &&
      forall i :: 0 <= i < |r.value.value| ==> r.value.value[i] == TopicMeta(server.versions(subject).data[i], subject)
  {
    match server.versions(subject)
    case Ok(versions) => Returned(Some(seq(|versions|, i requires 0 <= i < |versions| => TopicMeta(versions[i], subject))))
    case Failed(e) => SuppressAxiosError(e)
  }

  /** `_fetchAllSchemaVersions` as written: the same unbound `.catch` as `_fetchLatestVersion`. */
  function FetchAllSchemaVersionsAsWritten(server: Server, subject: string): (r: Caught<Option<seq<TopicMeta>>>)
    ensures r.Rethrown? <==> server.versions(subject).Failed?
    ensures server.versions(subject).Failed? && server.versions(subject).error.ResponseError? ==> r == Rethrown(TypeError)
    ensures !(server.versions(subject).Failed? && server.versions(subject).error.ResponseError?) ==>
      r == FetchAllSchemaVersions(server, subject)
  {
    match server.versions(subject)
    case Ok(versions) => Returned(Some(seq(|versions|, i requires 0 <= i < |versions| => TopicMeta(versions[i], subject))))
    case Failed(e) => SuppressAxiosErrorUnbound(e)
  }

  /** `_fetchSchema`: split the subject, fetch that version; every failure is rethrown. */
  function FetchSchema(server: Server, meta: TopicMeta): (r: Caught<SchemaObj>)
    ensures r.Returned? <==> server.schemaAt(meta.schemaTopic, meta.version).Ok?
    ensures r.Rethrown? ==> r.failure == HttpFailure(server.schemaAt(meta.schemaTopic, meta.version).error)
    ensures r.Returned? ==>
      && r.value.responseRaw == server.schemaAt(meta.schemaTopic, meta.version).data
      && r.value.version == meta.version
      && r.value.schemaTopicRaw == meta.schemaTopic
      && r.value.avroType.None?
      && ('-' in meta.schemaTopic ==> r.value.topic + "-" + r.value.schemaType == meta.schemaTopic)
      && ('-' !in meta.schemaTopic ==> r.value.topic == "" && r.value.schemaType == meta.schemaTopic)
      && '-' !in r.value.schemaType
  {
    var parts := SplitSubject(meta.schemaTopic);
    match server.schemaAt(meta.schemaTopic, meta.version)
    case Ok(raw) => Returned(SchemaObj(meta.version, raw, parts.schemaType, meta.schemaTopic, parts.topic, None))
    case Failed(e) => HandleAxiosError(e)
  }

  /** The stage functions as values, for the order-preserving map. */
  function LatestVersionOf(server: Server): string -> Caught<Option<TopicMeta>>
  {
    s => FetchLatestVersion(server, s)
  }

  function LatestVersionAsWrittenOf(server: Server): string -> Caught<Option<TopicMeta>>
  {
    s => FetchLatestVersionAsWritten(server, s)
  }

  function AllVersionsOf(server: Server): string -> Caught<Option<seq<TopicMeta>>>
  {
    s => FetchAllSchemaVersions(server, s)
  }

  function AllVersionsAsWrittenOf(server: Server): string -> Caught<Option<seq<TopicMeta>>>
  {
    s => FetchAllSchemaVersionsAsWritten(server, s)
  }

  function SchemaOf(server: Server): TopicMeta -> Caught<SchemaObj>
  {
    m => FetchSchema(server, m)
  }

  /**
   * The two stages that end in `.catch(this._suppressAxiosError)`: the
   * latest-version lookup and the version listing of the all-versions pass.
   */
  datatype Fetchers = Fetchers(
    latest: string -> Caught<Option<TopicMeta>>,
    versions: string -> Caught<Option<seq<TopicMeta>>>)

  /** Both handlers bound to the registry, as they are meant to run. */
  function Bound(server: Server): Fetchers
  {
    Fetchers(LatestVersionOf(server), AllVersionsOf(server))
  }

  /** Both handlers unbound, as the code is written. */
  function AsWritten(server: Server): Fetchers
  {
    Fetchers(LatestVersionAsWrittenOf(server), AllVersionsAsWrittenOf(server))
  }

  // ---------------------------------------------------------------------
  // bluebird's map, filter(Boolean) and _flatenResults
  // ---------------------------------------------------------------------

  /**
   * `Promise.map(xs, f)`: the results in input order when every call
   * returns, a rejection as soon as one call rejects (here: the first
   * failing element in input order).
   */
  function MapCaught<A, B>(f: A -> Caught<B>, xs: seq<A>): (r: Caught<seq<B>>)
    ensures r.Returned? <==> forall i :: 0 <= i < |xs| ==> f(xs[i]).Returned?
    ensures r.Returned? ==> |r.value| == |xs| && forall i :: 0 <= i < |xs| ==> r.value[i] == f(xs[i]).value
    ensures r.Rethrown? ==>
      exists i :: 0 <= i < |xs| && f(xs[i]) == Rethrown(r.failure) && forall j :: 0 <= j < i ==> f(xs[j]).Returned?
  {
    if xs == [] then Returned([])
    else
      match MapCaught(f, xs[..|xs| - 1])
      case Rethrown(e) => Rethrown(e)
      case Returned(init) =>
        match f(xs[|xs| - 1])
        case Rethrown(e) => Rethrown(e)
        case Returned(y) => Returned(init + [y])
  }

  /** Once a prefix rejects, the whole map rejects with the same failure. */
  lemma {:induction false} MapCaughtRethrownPrefix<A, B>(f: A -> Caught<B>, xs: seq<A>, k: nat)
    requires k <= |xs|
    requires MapCaught(f, xs[..k]).Rethrown?
    ensures MapCaught(f, xs) == MapCaught(f, xs[..k])
    decreases |xs| - k
  {
    if k < |xs| {
      assert xs[..k + 1][..k] == xs[..k];
      assert MapCaught(f, xs[..k + 1]) == MapCaught(f, xs[..k]);
      MapCaughtRethrownPrefix(f, xs, k + 1);
    } else {
      assert xs[..k] == xs;
    }
  }

  /** The loop `Promise.map` runs (the concurrency limit does not change results). */
  method MapStage<A, B>(f: A -> Caught<B>, xs: seq<A>) returns (r: Caught<seq<B>>)
    ensures r == MapCaught(f, xs)
  {
    var ys: seq<B> := [];
    var i := 0;
    while i < |xs|
      invariant 0 <= i <= |xs|
      invariant MapCaught(f, xs[..i]) == Returned(ys)
    {
      var y := f(xs[i]);
      assert xs[..i + 1][..i] == xs[..i];
      if y.Rethrown? {
        MapCaughtRethrownPrefix(f, xs, i + 1);
        return Rethrown(y.failure);
      }
      ys := ys + [y.value];
      i := i + 1;
    }
    assert xs[..i] == xs;
    r := Returned(ys);
  }

  /** `.filter(Boolean)` over results that are an object or null. */
  function Present<T>(xs: seq<Option<T>>): (r: seq<T>)
    ensures |r| <= |xs|
    ensures forall j :: 0 <= j < |r| ==> Some(r[j]) in xs
    ensures forall i :: 0 <= i < |xs| && xs[i].Some? ==> xs[i].value in r
    ensures (forall i :: 0 <= i < |xs| ==> xs[i].None?) ==> r == []
    ensures (forall i :: 0 <= i < |xs| ==> xs[i].Some?) ==>
      |r| == |xs| && forall i :: 0 <= i < |xs| ==> r[i] == xs[i].value
  {
    if xs == [] then []
    else
      var init := Present(xs[..|xs| - 1]);
      assert forall i :: 0 <= i < |xs| - 1 ==> xs[..|xs| - 1][i] == xs[i];
      match xs[|xs| - 1]
      case None => init
      case Some(y) => init + [y]
  }

  /** Filtering keeps the present results in order and with their multiplicity. */
  lemma {:induction false} PresentConcat<T>(a: seq<Option<T>>, b: seq<Option<T>>)
    ensures Present(a + b) == Present(a) + Present(b)
    decreases |b|
  {
    if b == [] {
      assert a + b == a;
    } else {
      var b' := b[..|b| - 1];
      assert (a + b)[..|a + b| - 1] == a + b';
      assert (a + b)[|a + b| - 1] == b[|b| - 1];
      PresentConcat(a, b');
    }
  }

  /** Proof helper: `filter(Boolean)` on one result. */
  lemma PresentOne<T>(y: T)
    ensures Present<T>([None]) == []
    ensures Present([Some(y)]) == [y]
  {
    var none: seq<Option<T>> := [None];
    assert none[..0] == [];
    assert [Some(y)][..0] == [];
  }

  function TotalLength<T>(xss: seq<seq<T>>): nat
  {
    if xss == [] then 0 else TotalLength(xss[..|xss| - 1]) + |xss[|xss| - 1]|
  }

  /** `_flatenResults` as a value: the inner lists one after another. */
  function Flatten<T>(xss: seq<seq<T>>): (r: seq<T>)
    ensures |r| == TotalLength(xss)
  {
    if xss == [] then [] else Flatten(xss[..|xss| - 1]) + xss[|xss| - 1]
  }

  /** Flattening is order-preserving concatenation. */
  lemma {:induction false} FlattenConcat<T>(a: seq<seq<T>>, b: seq<seq<T>>)
    ensures Flatten(a + b) == Flatten(a) + Flatten(b)
    decreases |b|
  {
    if b == [] {
      assert a + b == a;
    } else {
      var b' := b[..|b| - 1];
      assert (a + b)[..|a + b| - 1] == a + b';
      assert (a + b)[|a + b| - 1] == b[|b| - 1];
      FlattenConcat(a, b');
    }
  }


  /** `_flatenResults`: the nested `forEach`/`push` loops. */
  method FlattenResults<T>(results: seq<seq<T>>) returns (flattened: seq<T>)
    ensures flattened == Flatten(results)
  {
    flattened := [];
    for i := 0 to |results|
      invariant flattened == Flatten(results[..i])
    {
      for j := 0 to |results[i]|
        invariant flattened == Flatten(results[..i]) + results[i][..j]
      {
        flattened := flattened + [results[i][j]];
      }
      assert results[i][..|results[i]|] == results[i];
      assert results[..i + 1][..i] == results[..i];
    }
    assert results[..|results|] == results;
  }

  /** `_processSelectedTopics`: the `forEach` loop that pushes `-value` and `-key` subjects. */
  method ProcessSelectedTopics(selectedTopics: seq<string>) returns (topics: seq<string>)
    ensures topics == Subjects(selectedTopics)
    ensures |topics| == 2 * |selectedTopics|
    ensures forall i :: 0 <= i < |selectedTopics| ==>
      topics[2 * i] == selectedTopics[i] + "-value" && topics[2 * i + 1] == selectedTopics[i] + "-key"
  {
    topics := [];
    for i := 0 to |selectedTopics|
      invariant topics == Subjects(selectedTopics[..i])
    {
      topics := topics + [selectedTopics[i] + "-value"];
      topics := topics + [selectedTopics[i] + "-key"];
      assert selectedTopics[..i + 1][..i] == selectedTopics[..i];
    }
    assert selectedTopics[..|selectedTopics|] == selectedTopics;
  }

  // ---------------------------------------------------------------------
  // The caches and what registration does to them
  // ---------------------------------------------------------------------

  /** The five dictionaries of a registry instance. */
  datatype Cache = Cache(
    valueSchemas: map<string, AvroType>,
    keySchemas: map<string, AvroType>,
    schemaIds: map<string, int>,
    schemaTypeById: map<string, AvroType>,
    schemaMeta: map<string, SchemaResponse>)

  const EmptyCache := Cache(map[], map[], map[], map[], map[])

  /** No dictionary lost a key. */
  predicate Grows(c: Cache, d: Cache)
  {
    && c.valueSchemas.Keys <= d.valueSchemas.Keys
    && c.keySchemas.Keys <= d.keySchemas.Keys
    && c.schemaIds.Keys <= d.schemaIds.Keys
    && c.schemaTypeById.Keys <= d.schemaTypeById.Keys
    && c.schemaMeta.Keys <= d.schemaMeta.Keys
  }

  datatype Registration = Registration(cache: Cache, schemaObj: SchemaObj)

  /** The parse of `_registerSchemaLatest`: always `{ wrapUnions: true }`, never the instance's parse options. */
  function ParseLatest(parse: Parser, obj: SchemaObj): (r: ParseResult)
    ensures parse(obj.responseRaw.schema, None).Threw? ==> r.Threw?
    ensures parse(obj.responseRaw.schema, None).Parsed? ==>
      r == parse(obj.responseRaw.schema, Some(ParseOptions(true, NoRegistry)))
  {
    TypeFromSchemaResponse(parse, obj.responseRaw.schema, LatestParseOptions)
  }

  /** `_registerSchemaLatest` as a value: publish by role, or leave everything alone when parsing throws. */
  function RegisterLatest(c: Cache, obj: SchemaObj, parse: Parser): (r: Registration)
    ensures Grows(c, r.cache)
    ensures ParseLatest(parse, obj).Threw? ==> r == Registration(c, obj)
    ensures ParseLatest(parse, obj).Parsed? ==>
      var t := ParseLatest(parse, obj).avroType;
      && r.schemaObj == obj.(avroType := Some(t))
      && r.cache.schemaMeta == c.schemaMeta[obj.topic := obj.responseRaw]
    ensures ParseLatest(parse, obj).Parsed? && IsValueRole(obj.schemaType) ==>
      var t := ParseLatest(parse, obj).avroType;
      && r.cache.keySchemas == c.keySchemas
      && r.cache.valueSchemas == c.valueSchemas[obj.topic := t]
      && r.cache.schemaIds == c.schemaIds[obj.topic + "-value" := obj.responseRaw.id]
      && r.cache.schemaTypeById == c.schemaTypeById[IdKey(obj.responseRaw.id) := t]
    ensures ParseLatest(parse, obj).Parsed? && !IsValueRole(obj.schemaType) ==>
      var t := ParseLatest(parse, obj).avroType;
      && r.cache.valueSchemas == c.valueSchemas
      && r.cache.schemaTypeById == c.schemaTypeById
      && r.cache.keySchemas == c.keySchemas[obj.topic := t]
      && r.cache.schemaIds == c.schemaIds[obj.topic + "-key" := obj.responseRaw.id]
  {
    match ParseLatest(parse, obj)
    case Threw => Registration(c, obj)
    case Parsed(t) =>
      var published :=
        if IsValueRole(obj.schemaType) then
          c.(schemaTypeById := c.schemaTypeById[IdKey(obj.responseRaw.id) := t],
             valueSchemas := c.valueSchemas[obj.topic := t],
             schemaIds := c.schemaIds[obj.topic + "-value" := obj.responseRaw.id])
        else
          c.(keySchemas := c.keySchemas[obj.topic := t],
             schemaIds := c.schemaIds[obj.topic + "-key" := obj.responseRaw.id]);
      Registration(published.(schemaMeta := published.schemaMeta[obj.topic := obj.responseRaw]),
                   obj.(avroType := Some(t)))
  }

  /** `_registerSchema` as a value: only `schemaTypeById`, only for value subjects. */
  function RegisterVersion(c: Cache, obj: SchemaObj, parse: Parser, options: ParseOptions): (r: Registration)
    ensures r.cache == c.(schemaTypeById := r.cache.schemaTypeById)
    ensures Grows(c, r.cache)
    ensures !IsValueRole(obj.schemaType) ==> r.cache == c
    ensures TypeFromSchemaResponse(parse, obj.responseRaw.schema, options).Threw? ==> r == Registration(c, obj)
    ensures TypeFromSchemaResponse(parse, obj.responseRaw.schema, options).Parsed? ==>
      var t := TypeFromSchemaResponse(parse, obj.responseRaw.schema, options).avroType;
      && r.schemaObj == obj.(avroType := Some(t))
      && (IsValueRole(obj.schemaType) ==> r.cache.schemaTypeById == c.schemaTypeById[IdKey(obj.responseRaw.id) := t])
  {
    match TypeFromSchemaResponse(parse, obj.responseRaw.schema, options)
    case Threw => Registration(c, obj)
    case Parsed(t) =>
      var published :=
        if IsValueRole(obj.schemaType) then c.(schemaTypeById := c.schemaTypeById[IdKey(obj.responseRaw.id) := t])
        else c;
      Registration(published, obj.(avroType := Some(t)))
  }

  datatype Registrations = Registrations(cache: Cache, schemaObjs: seq<SchemaObj>)

  /** `.map(this._registerSchemaLatest)`: register one object after the other. */
  function RegisterAllLatest(c: Cache, objs: seq<SchemaObj>, parse: Parser): (r: Registrations)
    ensures Grows(c, r.cache)
    ensures |r.schemaObjs| == |objs|
    ensures forall i :: 0 <= i < |objs| ==> r.schemaObjs[i].(avroType := objs[i].avroType) == objs[i]
    ensures forall i :: 0 <= i < |objs| ==>
      r.schemaObjs[i].avroType ==
        if ParseLatest(parse, objs[i]).Parsed? then Some(ParseLatest(parse, objs[i]).avroType) else objs[i].avroType
  {
    if objs == [] then Registrations(c, [])
    else
      var done := RegisterAllLatest(c, objs[..|objs| - 1], parse);
      var one := RegisterLatest(done.cache, objs[|objs| - 1], parse);
      Registrations(one.cache, done.schemaObjs + [one.schemaObj])
  }

  /** `.map(this._registerSchema)`: register every historical version in order. */
  function RegisterAllVersions(c: Cache, objs: seq<SchemaObj>, parse: Parser, options: ParseOptions): (r: Registrations)
    ensures r.cache == c.(schemaTypeById := r.cache.schemaTypeById)
    ensures Grows(c, r.cache)
    ensures |r.schemaObjs| == |objs|
    ensures forall i :: 0 <= i < |objs| ==> r.schemaObjs[i].(avroType := objs[i].avroType) == objs[i]
    ensures forall i :: 0 <= i < |objs| ==>
      r.schemaObjs[i].avroType ==
        if TypeFromSchemaResponse(parse, objs[i].responseRaw.schema, options).Parsed?
        then Some(TypeFromSchemaResponse(parse, objs[i].responseRaw.schema, options).avroType)
        else objs[i].avroType
  {
    if objs == [] then Registrations(c, [])
    else
      var done := RegisterAllVersions(c, objs[..|objs| - 1], parse, options);
      var one := RegisterVersion(done.cache, objs[|objs| - 1], parse, options);
      Registrations(one.cache, done.schemaObjs + [one.schemaObj])
  }

  /**
   * A selected topic expands to its value subject and then its key subject;
   * when both parse, the key response is what `schemaMeta` keeps for the
   * topic, while `valueSchemas` keeps the value type.
   */
  lemma SchemaMetaEndsWithKey(c: Cache, v: SchemaObj, k: SchemaObj, parse: Parser)
    requires v.topic == k.topic
    requires IsValueRole(v.schemaType) && !IsValueRole(k.schemaType)
    requires ParseLatest(parse, v).Parsed? && ParseLatest(parse, k).Parsed?
    ensures RegisterAllLatest(c, [v, k], parse).cache.schemaMeta[v.topic] == k.responseRaw
    ensures v.topic in RegisterAllLatest(c, [v, k], parse).cache.valueSchemas &&
            RegisterAllLatest(c, [v, k], parse).cache.valueSchemas[v.topic] == ParseLatest(parse, v).avroType
  {
    assert [v, k][..1] == [v];
    assert [v][..0] == [];
  }

  /** Every cached value schema is also cached under its registry id. */
  predicate ValueIndexed(c: Cache)
  {
    forall t :: t in c.valueSchemas ==>
      && t + "-value" in c.schemaIds
      && IdKey(c.schemaIds[t + "-value"]) in c.schemaTypeById
      && c.schemaTypeById[IdKey(c.schemaIds[t + "-value"])] == c.valueSchemas[t]
  }

  lemma SuffixedDiffer(t: string, u: string)
    ensures t + "-value" != u + "-key"
    ensures t + "-value" == u + "-value" ==> t == u
  {
    var tv, uk := t + "-value", u + "-key";
    assert tv[|tv| - 1] == 'e' && uk[|uk| - 1] == 'y';
    if t + "-value" == u + "-value" {
      assert t == (t + "-value")[..|t|];
      assert u == (u + "-value")[..|u|];
    }
  }

  /**
   * Registering a latest schema keeps every cached value schema reachable
   * by its id, provided any other cached topic with the same id holds the
   * same type (the same schema registered under two topics).
   */
  lemma RegisterLatestKeepsValueIndexed(c: Cache, obj: SchemaObj, parse: Parser)
    requires ValueIndexed(c)
    requires ParseLatest(parse, obj).Parsed? && IsValueRole(obj.schemaType) ==>
      forall t :: t in c.valueSchemas && t != obj.topic && c.schemaIds[t + "-value"] == obj.responseRaw.id ==>
        c.valueSchemas[t] == ParseLatest(parse, obj).avroType
    ensures ValueIndexed(RegisterLatest(c, obj, parse).cache)
  {
    var d := RegisterLatest(c, obj, parse).cache;
    forall t | t in d.valueSchemas
      ensures && t + "-value" in d.schemaIds
              && IdKey(d.schemaIds[t + "-value"]) in d.schemaTypeById
              && d.schemaTypeById[IdKey(d.schemaIds[t + "-value"])] == d.valueSchemas[t]
    {
      SuffixedDiffer(t, obj.topic);
      if ParseLatest(parse, obj).Parsed? && IsValueRole(obj.schemaType) && t != obj.topic {
        var old_id := c.schemaIds[t + "-value"];
        if IdKey(old_id) == IdKey(obj.responseRaw.id) {
          IdKeyInjective(old_id, obj.responseRaw.id);
        }
      }
    }
  }

  // ---------------------------------------------------------------------
  // One fetch cycle
  // ---------------------------------------------------------------------

  /** Where a cycle was rejected. */
  datatype Stage =
    | SubjectsStage       // listing or expanding the subjects
    | LatestVersionStage  // GET .../versions/latest
    | SchemaStage         // GET .../versions/{v} for the latest versions
    | VersionListStage    // GET .../versions (all-versions pass)
    | VersionSchemaStage  // GET .../versions/{v} for every version
  {
    predicate BeforeRegistration() { SubjectsStage? || LatestVersionStage? || SchemaStage? }
  }

  datatype CycleOutcome = Completed(schemas: seq<SchemaObj>) | Rejected(stage: Stage, failure: Failure)

  datatype Settings = Settings(selectedTopics: Option<seq<string>>, fetchAllVersions: bool, parseOptions: ParseOptions)

  datatype PassResult = PassResult(cache: Cache, outcome: CycleOutcome)

  /** `_checkForAllVersions`: the optional pass over every version of every stored subject. */
  function AllVersionsPass(c: Cache, schemaTopics: Option<seq<string>>, settings: Settings, parse: Parser,
                           server: Server, fetchers: Fetchers, registered: seq<SchemaObj>): (r: PassResult)
    ensures !settings.fetchAllVersions ==> r == PassResult(c, Completed(registered))
    ensures r.outcome.Completed? ==> registered <= r.outcome.schemas
    ensures r.cache == c.(schemaTypeById := r.cache.schemaTypeById)
    ensures Grows(c, r.cache)
    ensures r.outcome.Rejected? ==> r.cache == c
  {
    if !settings.fetchAllVersions then PassResult(c, Completed(registered))
    else if schemaTopics.None? then PassResult(c, Rejected(VersionListStage, TypeError))
    else
      match MapCaught(fetchers.versions, schemaTopics.value)
      case Rethrown(f) => PassResult(c, Rejected(VersionListStage, f))
      case Returned(lists) =>
        match MapCaught(SchemaOf(server), Flatten(Present(lists)))
        case Rethrown(f) => PassResult(c, Rejected(VersionSchemaStage, f))
        case Returned(objs) =>
          var all := RegisterAllVersions(c, objs, parse, settings.parseOptions);
          PassResult(all.cache, Completed(registered + all.schemaObjs))
  }

  datatype CycleResult = CycleResult(cache: Cache, schemaTopics: Option<seq<string>>, outcome: CycleOutcome)

  /** `_fetchSchemas`: the whole pipeline, from the subject list to the result list. */
  function Cycle(c: Cache, schemaTopics: Option<seq<string>>, settings: Settings, parse: Parser,
                 server: Server, fetchers: Fetchers): (r: CycleResult)
    ensures Grows(c, r.cache)
    ensures r.outcome.Rejected? && r.outcome.stage.BeforeRegistration() ==> r.cache == c
    ensures FetchTopics(settings.selectedTopics, server).Rethrown? ==> r.schemaTopics == schemaTopics
    ensures FetchTopics(settings.selectedTopics, server).Returned? ==>
      r.schemaTopics == FetchTopics(settings.selectedTopics, server).value
    ensures r.outcome.Completed? ==> r.schemaTopics.Some?
  {
    match FetchTopics(settings.selectedTopics, server)
    case Rethrown(f) => CycleResult(c, schemaTopics, Rejected(SubjectsStage, f))
    case Returned(None) => CycleResult(c, None, Rejected(SubjectsStage, TypeError))  // bluebird cannot map over null
    case Returned(Some(subjects)) =>
      match MapCaught(fetchers.latest, subjects)
      case Rethrown(f) => CycleResult(c, Some(subjects), Rejected(LatestVersionStage, f))
      case Returned(latest) =>
        match MapCaught(SchemaOf(server), Present(latest))
        case Rethrown(f) => CycleResult(c, Some(subjects), Rejected(SchemaStage, f))
        case Returned(objs) =>
          var registered := RegisterAllLatest(c, objs, parse);
          var pass := AllVersionsPass(registered.cache, Some(subjects), settings, parse, server, fetchers, registered.schemaObjs);
          CycleResult(pass.cache, Some(subjects), pass.outcome)
  }

  // ---------------------------------------------------------------------
  // What a cycle keeps, and what running it again does
  // ---------------------------------------------------------------------

  /** The latest versions a cycle goes on with: one per subject that has one, in subject order. */
  function KnownLatest(server: Server, subjects: seq<string>): (r: seq<TopicMeta>)
    ensures |r| <= |subjects|
    ensures forall i :: 0 <= i < |r| ==>
      r[i].schemaTopic in subjects && server.latest(r[i].schemaTopic) == Ok(r[i].version)
    ensures forall i :: 0 <= i < |subjects| && server.latest(subjects[i]).Ok? ==>
      TopicMeta(server.latest(subjects[i]).data, subjects[i]) in r
  {
    if subjects == [] then []
    else
      var last := subjects[|subjects| - 1];
      KnownLatest(server, subjects[..|subjects| - 1]) +
        (if server.latest(last).Ok? then [TopicMeta(server.latest(last).data, last)] else [])
  }

  /** No latest-version request fails below the HTTP level. */
  predicate Reachable(server: Server, subjects: seq<string>)
  {
    forall i :: 0 <= i < |subjects| ==> server.latest(subjects[i]) != Failed(NoResponse)
  }

  /**
   * The latest-version stage survives exactly when every request got an HTTP
   * answer; subjects answered with an error status are dropped, the others
   * go on in order.
   */
  lemma {:induction false} MissingSubjectsAreDropped(server: Server, subjects: seq<string>)
    ensures MapCaught(LatestVersionOf(server), subjects).Returned? <==> Reachable(server, subjects)
    ensures Reachable(server, subjects) ==>
      Present(MapCaught(LatestVersionOf(server), subjects).value) == KnownLatest(server, subjects)
  {
    if subjects != [] {
      var init := subjects[..|subjects| - 1];
      var last := subjects[|subjects| - 1];
      if Reachable(server, subjects) {
        assert Reachable(server, init) by {
          forall i | 0 <= i < |init|
            ensures server.latest(init[i]) != Failed(NoResponse)
          {
            assert init[i] == subjects[i];
          }
        }
        MissingSubjectsAreDropped(server, init);
        var vs := MapCaught(LatestVersionOf(server), init).value;
        var ws := vs + [FetchLatestVersion(server, last).value];
        assert MapCaught(LatestVersionOf(server), subjects) == Returned(ws);
        assert ws[..|ws| - 1] == vs;
      }
    }
  }

  /**
   * Without the all-versions pass, a cycle whose subjects all answer and
   * whose schemas all download returns one registered schema per subject
   * that has a latest version, in subject order.
   */
  lemma CycleReturnsEveryKnownSubject(c: Cache, schemaTopics: Option<seq<string>>, settings: Settings,
                                      parse: Parser, server: Server, subjects: seq<string>)
    requires FetchTopics(settings.selectedTopics, server) == Returned(Some(subjects))
    requires Reachable(server, subjects)
    requires forall i :: 0 <= i < |KnownLatest(server, subjects)| ==>
      server.schemaAt(KnownLatest(server, subjects)[i].schemaTopic, KnownLatest(server, subjects)[i].version).Ok?
    requires !settings.fetchAllVersions
    ensures var r := Cycle(c, schemaTopics, settings, parse, server, Bound(server));
      && r.schemaTopics == Some(subjects)
      && r.outcome.Completed?
      && |r.outcome.schemas| == |KnownLatest(server, subjects)|
      && forall i :: 0 <= i < |r.outcome.schemas| ==>
           && r.outcome.schemas[i].schemaTopicRaw == KnownLatest(server, subjects)[i].schemaTopic
           && r.outcome.schemas[i].version == KnownLatest(server, subjects)[i].version
  {
    MissingSubjectsAreDropped(server, subjects);
  }

  /** The first dictionary with the second written over it. */
  function Merge(c: Cache, w: Cache): Cache
  {
    Cache(c.valueSchemas + w.valueSchemas, c.keySchemas + w.keySchemas, c.schemaIds + w.schemaIds,
          c.schemaTypeById + w.schemaTypeById, c.schemaMeta + w.schemaMeta)
  }

  lemma MapAbsorbs<K, V>(x: map<K, V>, a: map<K, V>, b: map<K, V>)
    ensures (((x + a) + b) + a) + b == (x + a) + b
  {
    var lhs, rhs := (((x + a) + b) + a) + b, (x + a) + b;
    assert lhs.Keys == rhs.Keys;
    forall k | k in lhs
      ensures lhs[k] == rhs[k]
    {
    }
  }

  lemma MapMergeUpdate<K, V>(c: map<K, V>, w: map<K, V>, k: K, v: V)
    ensures (c + w)[k := v] == c + w[k := v]
  {
    var lhs, rhs := (c + w)[k := v], c + w[k := v];
    assert lhs.Keys == rhs.Keys;
    forall j | j in lhs
      ensures lhs[j] == rhs[j]
    {
    }
  }

  lemma MergeAbsorbs(x: Cache, a: Cache, b: Cache)
    ensures Merge(Merge(Merge(Merge(x, a), b), a), b) == Merge(Merge(x, a), b)
    ensures Merge(Merge(x, a), a) == Merge(x, a)
  {
    MapAbsorbs(x.valueSchemas, a.valueSchemas, b.valueSchemas);
    MapAbsorbs(x.keySchemas, a.keySchemas, b.keySchemas);
    MapAbsorbs(x.schemaIds, a.schemaIds, b.schemaIds);
    MapAbsorbs(x.schemaTypeById, a.schemaTypeById, b.schemaTypeById);
    MapAbsorbs(x.schemaMeta, a.schemaMeta, b.schemaMeta);
    MapAbsorbs(x.valueSchemas, a.valueSchemas, a.valueSchemas);
    MapAbsorbs(x.keySchemas, a.keySchemas, a.keySchemas);
    MapAbsorbs(x.schemaIds, a.schemaIds, a.schemaIds);
    MapAbsorbs(x.schemaTypeById, a.schemaTypeById, a.schemaTypeById);
    MapAbsorbs(x.schemaMeta, a.schemaMeta, a.schemaMeta);
    assert (x.valueSchemas + a.valueSchemas) + a.valueSchemas == x.valueSchemas + a.valueSchemas;
    assert (x.keySchemas + a.keySchemas) + a.keySchemas == x.keySchemas + a.keySchemas;
    assert (x.schemaIds + a.schemaIds) + a.schemaIds == x.schemaIds + a.schemaIds;
    assert (x.schemaTypeById + a.schemaTypeById) + a.schemaTypeById == x.schemaTypeById + a.schemaTypeById;
    assert (x.schemaMeta + a.schemaMeta) + a.schemaMeta == x.schemaMeta + a.schemaMeta;
  }

  lemma RegisterLatestOverrides(c: Cache, w: Cache, obj: SchemaObj, parse: Parser)
    ensures RegisterLatest(Merge(c, w), obj, parse).cache == Merge(c, RegisterLatest(w, obj, parse).cache)
    ensures RegisterLatest(Merge(c, w), obj, parse).schemaObj == RegisterLatest(w, obj, parse).schemaObj
  {
    if ParseLatest(parse, obj).Parsed? {
      var t := ParseLatest(parse, obj).avroType;
      var id := obj.responseRaw.id;
      MapMergeUpdate(c.schemaMeta, w.schemaMeta, obj.topic, obj.responseRaw);
      if IsValueRole(obj.schemaType) {
        MapMergeUpdate(c.schemaTypeById, w.schemaTypeById, IdKey(id), t);
        MapMergeUpdate(c.valueSchemas, w.valueSchemas, obj.topic, t);
        MapMergeUpdate(c.schemaIds, w.schemaIds, obj.topic + "-value", id);
      } else {
        MapMergeUpdate(c.keySchemas, w.keySchemas, obj.topic, t);
        MapMergeUpdate(c.schemaIds, w.schemaIds, obj.topic + "-key", id);
      }
    }
  }

  lemma RegisterVersionOverrides(c: Cache, w: Cache, obj: SchemaObj, parse: Parser, options: ParseOptions)
    ensures RegisterVersion(Merge(c, w), obj, parse, options).cache == Merge(c, RegisterVersion(w, obj, parse, options).cache)
    ensures RegisterVersion(Merge(c, w), obj, parse, options).schemaObj == RegisterVersion(w, obj, parse, options).schemaObj
  {
    var parsed := TypeFromSchemaResponse(parse, obj.responseRaw.schema, options);
    if parsed.Parsed? && IsValueRole(obj.schemaType) {
      MapMergeUpdate(c.schemaTypeById, w.schemaTypeById, IdKey(obj.responseRaw.id), parsed.avroType);
    }
  }

  lemma MergeEmpty(c: Cache)
    ensures Merge(c, EmptyCache) == c
  {
  }

  /** Registering latest schemas writes the same entries over whatever the cache held before. */
  lemma {:induction false} RegisterAllLatestOverrides(c: Cache, objs: seq<SchemaObj>, parse: Parser)
    ensures RegisterAllLatest(c, objs, parse).cache == Merge(c, RegisterAllLatest(EmptyCache, objs, parse).cache)
    ensures RegisterAllLatest(c, objs, parse).schemaObjs == RegisterAllLatest(EmptyCache, objs, parse).schemaObjs
  {
    if objs == [] {
      MergeEmpty(c);
    } else {
      var init := objs[..|objs| - 1];
      RegisterAllLatestOverrides(c, init, parse);
      RegisterLatestOverrides(c, RegisterAllLatest(EmptyCache, init, parse).cache, objs[|objs| - 1], parse);
    }
  }

  /** The same for the all-versions registrations. */
  lemma {:induction false} RegisterAllVersionsOverrides(c: Cache, objs: seq<SchemaObj>, parse: Parser, options: ParseOptions)
    ensures RegisterAllVersions(c, objs, parse, options).cache == Merge(c, RegisterAllVersions(EmptyCache, objs, parse, options).cache)
    ensures RegisterAllVersions(c, objs, parse, options).schemaObjs == RegisterAllVersions(EmptyCache, objs, parse, options).schemaObjs
  {
    if objs == [] {
      MergeEmpty(c);
    } else {
      var init := objs[..|objs| - 1];
      RegisterAllVersionsOverrides(c, init, parse, options);
      RegisterVersionOverrides(c, RegisterAllVersions(EmptyCache, init, parse, options).cache, objs[|objs| - 1], parse, options);
    }
  }

  /**
   * The refresh timer re-runs the cycle; against a registry that answers the
   * same, the second run leaves the caches, the stored subjects and the result
   * exactly as the first run left them.
   */
  lemma CycleIsIdempotent(c: Cache, schemaTopics: Option<seq<string>>, settings: Settings, parse: Parser,
                          server: Server, fetchers: Fetchers)
    ensures var first := Cycle(c, schemaTopics, settings, parse, server, fetchers);
            var second := Cycle(first.cache, first.schemaTopics, settings, parse, server, fetchers);
            second == first
  {
    var first := Cycle(c, schemaTopics, settings, parse, server, fetchers);
    if FetchTopics(settings.selectedTopics, server).Returned? && FetchTopics(settings.selectedTopics, server).value.Some? {
      var subjects := FetchTopics(settings.selectedTopics, server).value.value;
      var latest := MapCaught(fetchers.latest, subjects);
      if latest.Returned? && MapCaught(SchemaOf(server), Present(latest.value)).Returned? {
        var objs := MapCaught(SchemaOf(server), Present(latest.value)).value;
        var l := RegisterAllLatest(EmptyCache, objs, parse);
        RegisterAllLatestOverrides(c, objs, parse);
        RegisterAllLatestOverrides(first.cache, objs, parse);
        MergeAbsorbs(c, l.cache, l.cache);
        var lists := MapCaught(fetchers.versions, subjects);
        if settings.fetchAllVersions && lists.Returned? && MapCaught(SchemaOf(server), Flatten(Present(lists.value))).Returned? {
          var versionObjs := MapCaught(SchemaOf(server), Flatten(Present(lists.value))).value;
          var v := RegisterAllVersions(EmptyCache, versionObjs, parse, settings.parseOptions);
          RegisterAllVersionsOverrides(Merge(c, l.cache), versionObjs, parse, settings.parseOptions);
          RegisterAllVersionsOverrides(Merge(first.cache, l.cache), versionObjs, parse, settings.parseOptions);
          MergeAbsorbs(c, l.cache, v.cache);
        }
      }
    }
  }

  // ---------------------------------------------------------------------
  // The unbound error handler of the latest-version and all-versions stages
  // ---------------------------------------------------------------------

  /** Maps of two functions that agree on every input agree. */
  lemma {:induction false} MapCaughtAgree<A, B>(f: A -> Caught<B>, g: A -> Caught<B>, xs: seq<A>)
    requires forall i :: 0 <= i < |xs| ==> f(xs[i]) == g(xs[i])
    ensures MapCaught(f, xs) == MapCaught(g, xs)
  {
    if xs != [] {
      MapCaughtAgree(f, g, xs[..|xs| - 1]);
    }
  }

  /** No listed subject gets an error status, from either the latest-version or the version-list request. */
  predicate NoErrorStatus(server: Server, subjects: seq<string>)
  {
    forall i :: 0 <= i < |subjects| ==>
      && !(server.latest(subjects[i]).Failed? && server.latest(subjects[i]).error.ResponseError?)
      && !(server.versions(subjects[i]).Failed? && server.versions(subjects[i]).error.ResponseError?)
  }

  /**
   * The unbound handlers make a difference only for an error status: when no
   * listed subject gets one, the cycle as written is the intended cycle.
   */
  lemma AsWrittenCycleIsBound(c: Cache, schemaTopics: Option<seq<string>>, settings: Settings,
                              parse: Parser, server: Server)
    requires var topics := FetchTopics(settings.selectedTopics, server);
      topics.Returned? && topics.value.Some? ==> NoErrorStatus(server, topics.value.value)
    ensures Cycle(c, schemaTopics, settings, parse, server, AsWritten(server)) ==
            Cycle(c, schemaTopics, settings, parse, server, Bound(server))
  {
    var topics := FetchTopics(settings.selectedTopics, server);
    if topics.Returned? && topics.value.Some? {
      AsWrittenStagesAreBound(server, topics.value.value);
    }
    CycleAgree(c, schemaTopics, settings, parse, server, AsWritten(server), Bound(server));
  }

  /** Proof helper: the cycle depends on its fetchers only through their maps over the listed subjects. */
  lemma CycleAgree(c: Cache, schemaTopics: Option<seq<string>>, settings: Settings, parse: Parser,
                   server: Server, f: Fetchers, g: Fetchers)
    requires var topics := FetchTopics(settings.selectedTopics, server);
      topics.Returned? && topics.value.Some? ==>
        && MapCaught(f.latest, topics.value.value) == MapCaught(g.latest, topics.value.value)
        && MapCaught(f.versions, topics.value.value) == MapCaught(g.versions, topics.value.value)
    ensures Cycle(c, schemaTopics, settings, parse, server, f) == Cycle(c, schemaTopics, settings, parse, server, g)
  {
    var topics := FetchTopics(settings.selectedTopics, server);
    if topics.Returned? && topics.value.Some? {
      var subjects := topics.value.value;
      var latest := MapCaught(f.latest, subjects);
      if latest.Returned? {
        var fetched := MapCaught(SchemaOf(server), Present(latest.value));
        if fetched.Returned? {
          var registered := RegisterAllLatest(c, fetched.value, parse);
          AllVersionsPassAgree(registered.cache, Some(subjects), settings, parse, server, f, g, registered.schemaObjs);
        }
      }
    }
  }

  /** Proof helper: the same for the all-versions pass. */
  lemma AllVersionsPassAgree(c: Cache, schemaTopics: Option<seq<string>>, settings: Settings, parse: Parser,
                             server: Server, f: Fetchers, g: Fetchers, registered: seq<SchemaObj>)
    requires schemaTopics.Some? ==> MapCaught(f.versions, schemaTopics.value) == MapCaught(g.versions, schemaTopics.value)
    ensures AllVersionsPass(c, schemaTopics, settings, parse, server, f, registered) ==
            AllVersionsPass(c, schemaTopics, settings, parse, server, g, registered)
  {
  }

  /** Proof helper: both stages as written compute the bound stages on such subjects. */
  lemma AsWrittenStagesAreBound(server: Server, subjects: seq<string>)
    requires NoErrorStatus(server, subjects)
    ensures MapCaught(AsWritten(server).latest, subjects) == MapCaught(Bound(server).latest, subjects)
    ensures MapCaught(AsWritten(server).versions, subjects) == MapCaught(Bound(server).versions, subjects)
  {
    forall i | 0 <= i < |subjects|
      ensures AsWritten(server).latest(subjects[i]) == Bound(server).latest(subjects[i])
      ensures AsWritten(server).versions(subjects[i]) == Bound(server).versions(subjects[i])
    {
      assert FetchLatestVersionAsWritten(server, subjects[i]) == FetchLatestVersion(server, subjects[i]);
      assert FetchAllSchemaVersionsAsWritten(server, subjects[i]) == FetchAllSchemaVersions(server, subjects[i]);
    }
    MapCaughtAgree(AsWritten(server).latest, Bound(server).latest, subjects);
    MapCaughtAgree(AsWritten(server).versions, Bound(server).versions, subjects);
  }

  /** A registry that knows `orders-value` and has never seen an `orders-key` subject. */
  function ValueOnlyServer(): Server
  {
    Server(
      Ok(["orders-value"]),
      s => if s == "orders-value" then Ok(1) else Failed(ResponseError(404)),
      s => if s == "orders-value" then Ok([1]) else Failed(ResponseError(404)),
      (s, v) => Ok(SchemaResponse(v, 7, "\"string\"")))
  }

  /** As written, only a registry that answers every subject lets the latest-version stage through. */
  lemma AsWrittenLatestStageNeedsEverySubject(server: Server, subjects: seq<string>)
    ensures MapCaught(LatestVersionAsWrittenOf(server), subjects).Returned? <==>
            forall i :: 0 <= i < |subjects| ==> server.latest(subjects[i]).Ok?
  {
  }

  /**
   * As written, when the first subject without a latest version is answered
   * with an error status, the cycle rejects with a TypeError after storing
   * the subjects, and leaves the caches as they were.
   */
  lemma AsWrittenMissingSubjectRejectsTheCycle(c: Cache, schemaTopics: Option<seq<string>>, settings: Settings,
                                               parse: Parser, server: Server, subjects: seq<string>, k: nat)
    requires FetchTopics(settings.selectedTopics, server) == Returned(Some(subjects))
    requires k < |subjects|
    requires server.latest(subjects[k]).Failed? && server.latest(subjects[k]).error.ResponseError?
    requires forall j :: 0 <= j < k ==> server.latest(subjects[j]).Ok?
    ensures Cycle(c, schemaTopics, settings, parse, server, AsWritten(server)) ==
            CycleResult(c, Some(subjects), Rejected(LatestVersionStage, TypeError))
  {
    var f := LatestVersionAsWrittenOf(server);
    assert f(subjects[k]).Rethrown?;
    var r := MapCaught(f, subjects);
    var i :| 0 <= i < |subjects| && f(subjects[i]) == Rethrown(r.failure) && forall j :: 0 <= j < i ==> f(subjects[j]).Returned?;
    assert i == k;
  }

  /** With the handlers bound, a request without a response rejects the cycle before anything is registered. */
  lemma NoResponseAbortsTheCycle(c: Cache, schemaTopics: Option<seq<string>>, settings: Settings,
                                 parse: Parser, server: Server, subjects: seq<string>)
    requires FetchTopics(settings.selectedTopics, server) == Returned(Some(subjects))
    requires !Reachable(server, subjects)
    ensures Cycle(c, schemaTopics, settings, parse, server, Bound(server)) ==
            CycleResult(c, Some(subjects), Rejected(LatestVersionStage, HttpFailure(NoResponse)))
  {
    MissingSubjectsAreDropped(server, subjects);
    var r := MapCaught(LatestVersionOf(server), subjects);
    var i :| 0 <= i < |subjects| && LatestVersionOf(server)(subjects[i]) == Rethrown(r.failure);
    assert r.failure == HttpFailure(NoResponse);
  }

  /**
   * With the handlers bound, a schema download that fails for a kept subject
   * rejects the cycle with an HTTP failure, before anything is registered.
   */
  lemma SchemaFailureAbortsTheCycle(c: Cache, schemaTopics: Option<seq<string>>, settings: Settings,
                                    parse: Parser, server: Server, subjects: seq<string>, k: nat)
    requires FetchTopics(settings.selectedTopics, server) == Returned(Some(subjects))
    requires Reachable(server, subjects)
    requires k < |KnownLatest(server, subjects)|
    requires server.schemaAt(KnownLatest(server, subjects)[k].schemaTopic, KnownLatest(server, subjects)[k].version).Failed?
    ensures var r := Cycle(c, schemaTopics, settings, parse, server, Bound(server));
      && r.cache == c
      && r.schemaTopics == Some(subjects)
      && r.outcome.Rejected?
      && r.outcome.stage == SchemaStage
      && r.outcome.failure.HttpFailure?
  {
    MissingSubjectsAreDropped(server, subjects);
    var known := KnownLatest(server, subjects);
    assert SchemaOf(server)(known[k]).Rethrown?;
    var r := MapCaught(SchemaOf(server), known);
    var i :| 0 <= i < |known| && SchemaOf(server)(known[i]) == Rethrown(r.failure);
  }

  /**
   * Selecting topic `orders` on a registry without `orders-key`: as written
   * the cycle stores both subjects and rejects with a TypeError, caches
   * unchanged; with the handlers bound it drops `orders-key` and completes.
   */
  lemma UnboundSuppressionRejectsTheCycle(c: Cache, schemaTopics: Option<seq<string>>, parse: Parser,
                                          fetchAllVersions: bool, options: ParseOptions)
    ensures var settings := Settings(Some(["orders"]), fetchAllVersions, options);
      && Cycle(c, schemaTopics, settings, parse, ValueOnlyServer(), AsWritten(ValueOnlyServer())) ==
         CycleResult(c, Some(["orders-value", "orders-key"]), Rejected(LatestVersionStage, TypeError))
      && Cycle(c, schemaTopics, settings, parse, ValueOnlyServer(), Bound(ValueOnlyServer())).outcome.Completed?
    ensures FetchAllSchemaVersionsAsWritten(ValueOnlyServer(), "orders-key") == Rethrown(TypeError)
    ensures FetchAllSchemaVersions(ValueOnlyServer(), "orders-key") == Returned(None)
  {
    var server := ValueOnlyServer();
    var settings := Settings(Some(["orders"]), fetchAllVersions, options);
    OrdersSubjects();
    AsWrittenMissingSubjectRejectsTheCycle(c, schemaTopics, settings, parse, server, ["orders-value", "orders-key"], 1);
    OrdersLatestStage();
    OrdersVersionStages();
  }

  /** Proof helper: the `orders` selection and what the registry answers for its two subjects. */
  lemma OrdersSubjects()
    ensures Subjects(["orders"]) == ["orders-value", "orders-key"]
    ensures FetchTopics(Some(["orders"]), ValueOnlyServer()) == Returned(Some(["orders-value", "orders-key"]))
    ensures ValueOnlyServer().latest("orders-key") == Failed(ResponseError(404))
    ensures ValueOnlyServer().latest("orders-value").Ok?
  {
    var r := Subjects(["orders"]);
    assert r[0] == "orders" + "-value" && r[1] == "orders" + "-key";
    assert "orders" + "-value" == "orders-value" && "orders" + "-key" == "orders-key";
    assert "orders-key" != "orders-value";
  }

  /** Proof helper: the bound latest-version stage of the `orders` scenario. */
  lemma OrdersLatestStage()
    ensures MapCaught(LatestVersionOf(ValueOnlyServer()), ["orders-value", "orders-key"]) ==
            Returned([Some(TopicMeta(1, "orders-value")), None])
    ensures Present([Some(TopicMeta(1, "orders-value")), None]) == [TopicMeta(1, "orders-value")]
    ensures MapCaught(SchemaOf(ValueOnlyServer()), [TopicMeta(1, "orders-value")]).Returned?
  {
    var server := ValueOnlyServer();
    var subjects := ["orders-value", "orders-key"];
    assert "orders-key" != "orders-value";
    assert LatestVersionOf(server)(subjects[0]) == Returned(Some(TopicMeta(1, "orders-value")));
    assert LatestVersionOf(server)(subjects[1]) == Returned(None);
    var r := MapCaught(LatestVersionOf(server), subjects);
    assert r.Returned? && |r.value| == 2;
    assert r.value == [Some(TopicMeta(1, "orders-value")), None];
    PresentConcat([Some(TopicMeta(1, "orders-value"))], [None]);
    PresentOne(TopicMeta(1, "orders-value"));
    assert [Some(TopicMeta(1, "orders-value"))] + [None] == [Some(TopicMeta(1, "orders-value")), None];
    assert SchemaOf(server)([TopicMeta(1, "orders-value")][0]).Returned?;
  }

  /** Proof helper: the bound all-versions stages of the `orders` scenario. */
  lemma OrdersVersionStages()
    ensures var lists := MapCaught(AllVersionsOf(ValueOnlyServer()), ["orders-value", "orders-key"]);
      && lists.Returned?
      && MapCaught(SchemaOf(ValueOnlyServer()), Flatten(Present(lists.value))).Returned?
    ensures FetchAllSchemaVersionsAsWritten(ValueOnlyServer(), "orders-key") == Rethrown(TypeError)
    ensures FetchAllSchemaVersions(ValueOnlyServer(), "orders-key") == Returned(None)
  {
    var server := ValueOnlyServer();
    var subjects := ["orders-value", "orders-key"];
    assert "orders-key" != "orders-value";
    assert AllVersionsOf(server)(subjects[0]).Returned? && AllVersionsOf(server)(subjects[1]).Returned?;
    var lists := MapCaught(AllVersionsOf(server), subjects);
    var metas := Flatten(Present(lists.value));
    forall i | 0 <= i < |metas|
      ensures SchemaOf(server)(metas[i]).Returned?
    {
    }
  }

  // ---------------------------------------------------------------------
  // The registry instance
  // ---------------------------------------------------------------------

  class Registry {
    const parse: Parser
    const selectedTopics: Option<seq<string>>
    const fetchAllVersions: bool
    const parseOptions: ParseOptions

    /** The subjects of the last cycle, with their -value/-key suffixes; null before the first. */
    var schemaTopics: Option<seq<string>>
    var valueSchemas: map<string, AvroType>
    var keySchemas: map<string, AvroType>
    var schemaMeta: map<string, SchemaResponse>
    var schemaTypeById: map<string, AvroType>
    var schemaIds: map<string, int>

    constructor (parse: Parser, selectedTopics: Option<seq<string>>, fetchAllVersions: bool,
                 parseOptions: Option<UserParseOptions>)
      ensures this.parse == parse && this.selectedTopics == selectedTopics
      ensures this.fetchAllVersions == fetchAllVersions
      ensures this.parseOptions == WithParseDefaults(parseOptions)
      ensures schemaTopics == None && Snapshot() == EmptyCache
    {
      this.parse := parse;
      this.selectedTopics := selectedTopics;
      this.fetchAllVersions := fetchAllVersions;
      this.parseOptions := WithParseDefaults(parseOptions);
      schemaTopics := None;
      valueSchemas, keySchemas, schemaMeta, schemaTypeById, schemaIds := map[], map[], map[], map[], map[];
    }

    function Snapshot(): Cache
      reads this
    {
      Cache(valueSchemas, keySchemas, schemaIds, schemaTypeById, schemaMeta)
    }

    function Config(): Settings
    {
      Settings(selectedTopics, fetchAllVersions, parseOptions)
    }

    /** `_storeTopics`: remember the subject list and pass it on. */
    method StoreTopics(topics: Option<seq<string>>) returns (r: Option<seq<string>>)
      modifies this`schemaTopics
      ensures schemaTopics == topics && r == topics
    {
      schemaTopics := topics;
      r := topics;
    }

    /** `_registerSchemaLatest`: on success publish by role and record the metadata. */
    method RegisterSchemaLatest(schemaObj: SchemaObj) returns (r: SchemaObj)
      modifies this`valueSchemas, this`keySchemas, this`schemaIds, this`schemaTypeById, this`schemaMeta
      ensures Registration(Snapshot(), r) == RegisterLatest(old(Snapshot()), schemaObj, parse)
      ensures match ParseLatest(parse, schemaObj)
        case Threw => r == schemaObj && Snapshot() == old(Snapshot())
        case Parsed(t) =>
          && r == schemaObj.(avroType := Some(t))
          && schemaMeta == old(schemaMeta)[schemaObj.topic := schemaObj.responseRaw]
          && (IsValueRole(schemaObj.schemaType) ==>
                && schemaTypeById == old(schemaTypeById)[IdKey(schemaObj.responseRaw.id) := t]
                && valueSchemas == old(valueSchemas)[schemaObj.topic := t]
                && schemaIds == old(schemaIds)[schemaObj.topic + "-value" := schemaObj.responseRaw.id]
                && keySchemas == old(keySchemas))
          && (!IsValueRole(schemaObj.schemaType) ==>
                && keySchemas == old(keySchemas)[schemaObj.topic := t]
                && schemaIds == old(schemaIds)[schemaObj.topic + "-key" := schemaObj.responseRaw.id]
                && schemaTypeById == old(schemaTypeById)
                && valueSchemas == old(valueSchemas))
    {
      var parsed := TypeFromSchemaResponse(parse, schemaObj.responseRaw.schema, LatestParseOptions);
      if parsed.Threw? {
        return schemaObj;
      }
      r := schemaObj.(avroType := Some(parsed.avroType));
      if ToLower(schemaObj.schemaType) == "value" {
        schemaTypeById := schemaTypeById[IdKey(schemaObj.responseRaw.id) := parsed.avroType];
        valueSchemas := valueSchemas[schemaObj.topic := parsed.avroType];
        schemaIds := schemaIds[schemaObj.topic + "-value" := schemaObj.responseRaw.id];
      } else {
        keySchemas := keySchemas[schemaObj.topic := parsed.avroType];
        schemaIds := schemaIds[schemaObj.topic + "-key" := schemaObj.responseRaw.id];
      }
      schemaMeta := schemaMeta[schemaObj.topic := schemaObj.responseRaw];
    }

    /** `_registerSchema`: on success, value subjects only, write `schemaTypeById` and nothing else. */
    method RegisterSchema(schemaObj: SchemaObj) returns (r: SchemaObj)
      modifies this`schemaTypeById
      ensures Registration(Snapshot(), r) == RegisterVersion(old(Snapshot()), schemaObj, parse, parseOptions)
      ensures valueSchemas == old(valueSchemas) && keySchemas == old(keySchemas)
      ensures schemaIds == old(schemaIds) && schemaMeta == old(schemaMeta)
      ensures match TypeFromSchemaResponse(parse, schemaObj.responseRaw.schema, parseOptions)
        case Threw => r == schemaObj && schemaTypeById == old(schemaTypeById)
        case Parsed(t) =>
          && r == schemaObj.(avroType := Some(t))
          && schemaTypeById == if IsValueRole(schemaObj.schemaType)
                               then old(schemaTypeById)[IdKey(schemaObj.responseRaw.id) := t]
                               else old(schemaTypeById)
    {
      var parsed := TypeFromSchemaResponse(parse, schemaObj.responseRaw.schema, parseOptions);
      if parsed.Threw? {
        return schemaObj;
      }
      r := schemaObj.(avroType := Some(parsed.avroType));
      if ToLower(schemaObj.schemaType) == "value" {
        schemaTypeById := schemaTypeById[IdKey(schemaObj.responseRaw.id) := parsed.avroType];
      }
    }

    /** `.map(this._registerSchemaLatest)` over the fetched schemas. */
    method RegisterEachLatest(schemaObjs: seq<SchemaObj>) returns (registered: seq<SchemaObj>)
      modifies this`valueSchemas, this`keySchemas, this`schemaIds, this`schemaTypeById, this`schemaMeta
      ensures Registrations(Snapshot(), registered) == RegisterAllLatest(old(Snapshot()), schemaObjs, parse)
    {
      registered := [];
      for i := 0 to |schemaObjs|
        invariant Registrations(Snapshot(), registered) == RegisterAllLatest(old(Snapshot()), schemaObjs[..i], parse)
      {
        assert schemaObjs[..i + 1][..i] == schemaObjs[..i];
        var r := RegisterSchemaLatest(schemaObjs[i]);
        registered := registered + [r];
      }
      assert schemaObjs[..|schemaObjs|] == schemaObjs;
    }

    /** `.map(this._registerSchema)` over every fetched version. */
    method RegisterEachVersion(schemaObjs: seq<SchemaObj>) returns (registered: seq<SchemaObj>)
      modifies this`schemaTypeById
      ensures Registrations(Snapshot(), registered) == RegisterAllVersions(old(Snapshot()), schemaObjs, parse, parseOptions)
    {
      registered := [];
      for i := 0 to |schemaObjs|
        invariant Registrations(Snapshot(), registered) ==
                  RegisterAllVersions(old(Snapshot()), schemaObjs[..i], parse, parseOptions)
      {
        assert schemaObjs[..i + 1][..i] == schemaObjs[..i];
        var r := RegisterSchema(schemaObjs[i]);
        registered := registered + [r];
      }
      assert schemaObjs[..|schemaObjs|] == schemaObjs;
    }

    /** `_checkForAllVersions`. */
    method CheckForAllVersions(server: Server, fetchers: Fetchers, registeredSchemas: seq<SchemaObj>)
      returns (outcome: CycleOutcome)
      modifies this`schemaTypeById
      ensures PassResult(Snapshot(), outcome) ==
              AllVersionsPass(old(Snapshot()), schemaTopics, Config(), parse, server, fetchers, registeredSchemas)
    {
      if !fetchAllVersions {
        return Completed(registeredSchemas);
      }
      if schemaTopics.None? {
        return Rejected(VersionListStage, TypeError);
      }
      var lists := MapStage(fetchers.versions, schemaTopics.value);
      if lists.Rethrown? {
        return Rejected(VersionListStage, lists.failure);
      }
      var metas := FlattenResults(Present(lists.value));
      var fetched := MapStage(SchemaOf(server), metas);
      if fetched.Rethrown? {
        return Rejected(VersionSchemaStage, fetched.failure);
      }
      var allRegisteredSchemas := RegisterEachVersion(fetched.value);
      outcome := Completed(registeredSchemas + allRegisteredSchemas);
    }

    /**
     * `_fetchSchemas`: one refresh cycle; `Bound(server)` runs it as intended,
     * `AsWritten(server)` as the error handlers are written.
     */
    method FetchSchemas(server: Server, fetchers: Fetchers) returns (outcome: CycleOutcome)
      modifies this
      ensures CycleResult(Snapshot(), schemaTopics, outcome) ==
              Cycle(old(Snapshot()), old(schemaTopics), Config(), parse, server, fetchers)
    {
      var topics: Caught<Option<seq<string>>>;
      if selectedTopics.Some? {
        var subjects := ProcessSelectedTopics(selectedTopics.value);
        topics := Returned(Some(subjects));
      } else {
        topics := FetchAllSchemaTopics(server);
      }
      if topics.Rethrown? {
        return Rejected(SubjectsStage, topics.failure);
      }
      var stored := StoreTopics(topics.value);
      if stored.None? {
        return Rejected(SubjectsStage, TypeError);
      }
      var latest := MapStage(fetchers.latest, stored.value);
      if latest.Rethrown? {
        return Rejected(LatestVersionStage, latest.failure);
      }
      var fetched := MapStage(SchemaOf(server), Present(latest.value));
      if fetched.Rethrown? {
        return Rejected(SchemaStage, fetched.failure);
      }
      var registered := RegisterEachLatest(fetched.value);
      outcome := CheckForAllVersions(server, fetchers, registered);
    }
  }
}
