/**
  src/api/schemas/collection.schema.ts: the zod validators of a card body
  and a collection-info body. Each requires two string fields, with its own
  message when a field is missing; no length is constrained, so empty
  strings pass. Every failing field is reported, in declaration order, and
  fields not declared are dropped from the parsed value.
 */
module CollectionSchema {
  import opened Wrappers

  /** A JSON value as express.json gives it. */
  datatype Json =
    | JString(s: string)
    | JNumber(n: int)
    | JBool(b: bool)
    | JNull
    | JArray(items: seq<Json>)
    | JObject(fields: map<string, Json>)

  /** A zod issue: where it is and what it says. */
  datatype Issue = Issue(path: seq<string>, message: string)

  datatype Parsed<T> = Valid(value: T) | Invalid(issues: seq<Issue>)

  /** The type name zod reports for a value of the wrong type. */
  function TypeName(j: Json): string {
    match j
    case JString(_) => "string"
    case JNumber(_) => "number"
    case JBool(_) => "boolean"
    case JNull => "null"
    case JArray(_) => "array"
    case JObject(_) => "object"
  }

  /**
    string({ required_error }) on one field of the body: a missing field
    gives the required message, a value of another type zod's type message.
   */
  function CheckString(fields: map<string, Json>, name: string, requiredError: string): (r: Result<string, Issue>)
    ensures r.Success? <==> name in fields && fields[name].JString?
    ensures r.Success? ==> r.value == fields[name].s
    ensures r.Failure? ==> r.error.path == ["body", name]
    ensures r.Failure? && name !in fields ==> r.error.message == requiredError
  {
    if name !in fields then Failure(Issue(["body", name], requiredError))
    else match fields[name]
      case JString(s) => Success(s)
      case other => Failure(Issue(["body", name], "Expected string, received " + TypeName(other)))
  }

  /** The issues of two field checks, in order. */
  function Issues(a: Result<string, Issue>, b: Result<string, Issue>): seq<Issue> {
    (if a.Failure? then [a.error] else []) + (if b.Failure? then [b.error] else [])
  }

  /**
    An object with two required string fields: valid when both are strings,
    otherwise every failing field's issue. A body that is not an object is
    one issue on `body` itself.
   */
  function ParsePair(body: Json, first: string, firstError: string, second: string, secondError: string): (r: Parsed<(string, string)>)
    ensures r.Valid? <==>
      body.JObject? && first in body.fields && body.fields[first].JString?
      && second in body.fields && body.fields[second].JString?
    ensures r.Valid? ==> r.value == (body.fields[first].s, body.fields[second].s)
    ensures r.Invalid? ==> |r.issues| > 0
  {
    match body
    case JObject(fields) =>
      var a := CheckString(fields, first, firstError);
      var b := CheckString(fields, second, secondError);
      if a.Success? && b.Success? then Valid((a.value, b.value)) else Invalid(Issues(a, b))
    case _ => Invalid([Issue(["body"], "Expected object, received " + TypeName(body))])
  }

  datatype CardInput = CardInput(lexi: string, prompt: string)

  datatype CollectionInput = CollectionInput(title: string, description: string)

  /**
    cardSchema: accepted exactly when the body is an object whose `lexi` and
    `prompt` are strings, keeping just those two; otherwise at least one issue.
   */
  function ParseCard(body: Json): (r: Parsed<CardInput>)
    ensures r.Valid? <==>
      body.JObject? && "lexi" in body.fields && body.fields["lexi"].JString?
      && "prompt" in body.fields && body.fields["prompt"].JString?
    ensures r.Valid? ==> r.value == CardInput(body.fields["lexi"].s, body.fields["prompt"].s)
    ensures r.Invalid? ==> |r.issues| > 0
  {
    match ParsePair(body, "lexi", "Lexi is required", "prompt", "Prompt is required")
    case Valid((lexi, prompt)) => Valid(CardInput(lexi, prompt))
    case Invalid(issues) => Invalid(issues)
  }

  /**
    collectionInfoSchema: accepted exactly when the body is an object whose
    `title` and `description` are strings, keeping just those two; otherwise
    at least one issue.
   */
  function ParseCollectionInfo(body: Json): (r: Parsed<CollectionInput>)
    ensures r.Valid? <==>
      body.JObject? && "title" in body.fields && body.fields["title"].JString?
      && "description" in body.fields && body.fields["description"].JString?
    ensures r.Valid? ==> r.value == CollectionInput(body.fields["title"].s, body.fields["description"].s)
    ensures r.Invalid? ==> |r.issues| > 0
  {
    match ParsePair(body, "title", "Title is required", "description", "Description is required")
    case Valid((title, description)) => Valid(CollectionInput(title, description))
    case Invalid(issues) => Invalid(issues)
  }

  /** A missing field is reported with its own message, whatever the other field holds. */
  lemma CardMissingFields(fields: map<string, Json>)
    ensures "lexi" !in fields ==>
      ParseCard(JObject(fields)).Invalid? && ParseCard(JObject(fields)).issues[0] == Issue(["body", "lexi"], "Lexi is required")
    ensures "prompt" !in fields ==>
      ParseCard(JObject(fields)).Invalid? && Issue(["body", "prompt"], "Prompt is required") in ParseCard(JObject(fields)).issues
  {
  }

  lemma CollectionInfoMissingFields(fields: map<string, Json>)
    ensures "title" !in fields ==>
      ParseCollectionInfo(JObject(fields)).Invalid?
      && ParseCollectionInfo(JObject(fields)).issues[0] == Issue(["body", "title"], "Title is required")
    ensures "description" !in fields ==>
      ParseCollectionInfo(JObject(fields)).Invalid?
      && Issue(["body", "description"], "Description is required") in ParseCollectionInfo(JObject(fields)).issues
  {
  }

  /** An empty body reports both missing fields, in declaration order. */
  lemma EmptyBodyReportsBoth()
    ensures ParseCard(JObject(map[])) ==
      Invalid([Issue(["body", "lexi"], "Lexi is required"), Issue(["body", "prompt"], "Prompt is required")])
    ensures ParseCollectionInfo(JObject(map[])) ==
      Invalid([Issue(["body", "title"], "Title is required"), Issue(["body", "description"], "Description is required")])
  {
  }

  /** Empty strings are accepted: no length is required. */
  lemma EmptyStringsAccepted()
    ensures ParseCard(JObject(map["lexi" := JString(""), "prompt" := JString("")])) == Valid(CardInput("", ""))
    ensures ParseCollectionInfo(JObject(map["title" := JString(""), "description" := JString("")])) == Valid(CollectionInput("", ""))
  {
  }
}
