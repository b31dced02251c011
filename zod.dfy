/**
 * The part of zod's `safeParse` the request schemas use. A schema is a list of
 * keys, each with a rule; zod reports every failing check of every key, key by
 * key in schema order and, within a key, check by check in the order written, so
 * the first reported issue is the first failing check of the first failing key.
 */
module Zod {
  import opened Text

  /** A decoded JSON object: the keys present with a string value. */
  type Json = map<string, string>

  /** zod's e-mail and uuid regular expressions, left abstract. */
  datatype Formats = Formats(isEmail: string -> bool, isUuid: string -> bool)

  /** One check chained onto `z.string()`, with its custom message. */
  datatype Check =
    | Min(n: nat, message: string)     // .min(n, message)
    | Max(n: nat, message: string)     // .max(n, message)
    | Digits(message: string)          // .regex(/^\d+$/, message)
    | Email(message: string)           // .email(message)
    | Uuid(message: string)            // .uuid(message)

  /** The rule for one key: a string with checks, or an enum with an error map. */
  datatype Rule =
    | Str(checks: seq<Check>)
    | Enum(options: seq<string>, message: string)

  type Schema = seq<(string, Rule)>

  /** The message zod reports for a missing `z.string()` key. */
  const Required := "Required"

  predicate Holds(c: Check, v: string, formats: Formats) {
    match c
    case Min(n, _) => |v| >= n
    case Max(n, _) => |v| <= n
    case Digits(_) => |v| > 0 && AllDigits(v)
    case Email(_) => formats.isEmail(v)
    case Uuid(_) => formats.isUuid(v)
  }

  /** `i` is the first check of `checks` that `v` fails. */
  predicate FirstFailing(checks: seq<Check>, v: string, formats: Formats, i: int) {
    && 0 <= i < |checks|
    && !Holds(checks[i], v, formats)
    && forall j :: 0 <= j < i ==> Holds(checks[j], v, formats)
  }

  /** The messages of the failing checks, in order. */
  function CheckIssues(checks: seq<Check>, v: string, formats: Formats): (issues: seq<string>)
    ensures issues == [] <==> forall i :: 0 <= i < |checks| ==> Holds(checks[i], v, formats)
    ensures issues != [] ==>
      exists i :: FirstFailing(checks, v, formats, i) && issues[0] == checks[i].message
  {
    if checks == [] then []
    else
      var rest := CheckIssues(checks[1..], v, formats);
      if Holds(checks[0], v, formats) then
        assert forall i :: 1 <= i < |checks| ==> checks[i] == checks[1..][i - 1];
        assert rest != [] ==> exists i :: FirstFailing(checks[1..], v, formats, i) && rest[0] == checks[1..][i].message;
        assert rest != [] ==> exists i :: FirstFailing(checks, v, formats, i) && rest[0] == checks[i].message by {
          if rest != [] {
            var i :| FirstFailing(checks[1..], v, formats, i) && rest[0] == checks[1..][i].message;
            assert FirstFailing(checks, v, formats, i + 1);
          }
        }
        rest
      else
        assert FirstFailing(checks, v, formats, 0);
        [checks[0].message] + rest
  }

  /** The key is present and passes its rule. */
  predicate Accepts(body: Json, key: string, rule: Rule, formats: Formats) {
    key in body &&
    match rule
    case Str(checks) => forall i :: 0 <= i < |checks| ==> Holds(checks[i], body[key], formats)
    case Enum(options, _) => body[key] in options
  }

  /** The messages zod reports for one key of the body. */
  function RuleIssues(body: Json, key: string, rule: Rule, formats: Formats): (issues: seq<string>)
    ensures issues == [] <==> Accepts(body, key, rule, formats)
    ensures rule.Str? && key in body ==> issues == CheckIssues(rule.checks, body[key], formats)
    ensures rule.Str? && key !in body ==> issues == [Required]
    ensures rule.Enum? && issues != [] ==> issues == [rule.message]
  {
    match rule
    case Str(checks) => if key in body then CheckIssues(checks, body[key], formats) else [Required]
    case Enum(options, message) => if key in body && body[key] in options then [] else [message]
  }

  /** Every key of the schema is accepted. */
  predicate Valid(schema: Schema, body: Json, formats: Formats) {
    forall k :: 0 <= k < |schema| ==> Accepts(body, schema[k].0, schema[k].1, formats)
  }

  /** `k` is the first key of the schema that the body fails. */
  predicate FirstRejected(schema: Schema, body: Json, formats: Formats, k: int) {
    && 0 <= k < |schema|
    && !Accepts(body, schema[k].0, schema[k].1, formats)
    && forall j :: 0 <= j < k ==> Accepts(body, schema[j].0, schema[j].1, formats)
  }

  /** `safeParse(body).error.errors`, as messages; empty exactly when parsing succeeds. */
  function Issues(schema: Schema, body: Json, formats: Formats): (issues: seq<string>)
    ensures issues == [] <==> Valid(schema, body, formats)
    ensures issues != [] ==>
      exists k :: FirstRejected(schema, body, formats, k)
        && issues[0] == RuleIssues(body, schema[k].0, schema[k].1, formats)[0]
  {
    if schema == [] then []
    else
      var head := RuleIssues(body, schema[0].0, schema[0].1, formats);
      var rest := Issues(schema[1..], body, formats);
      assert forall k :: 1 <= k < |schema| ==> schema[k] == schema[1..][k - 1];
      if head == [] then
        assert rest != [] ==>
          exists k :: FirstRejected(schema, body, formats, k)
            && rest[0] == RuleIssues(body, schema[k].0, schema[k].1, formats)[0]
        by {
          if rest != [] {
            var k :| FirstRejected(schema[1..], body, formats, k)
              && rest[0] == RuleIssues(body, schema[1..][k].0, schema[1..][k].1, formats)[0];
            assert FirstRejected(schema, body, formats, k + 1);
          }
        }
        head + rest
      else
        assert FirstRejected(schema, body, formats, 0);
        head + rest
  }

  /** The error message a handler returns: `errors[0]?.message || "Invalid input"`. */
  function FirstMessage(issues: seq<string>): (message: string)
    requires issues != []
    ensures message != ""
    ensures issues[0] != "" ==> message == issues[0]
    ensures issues[0] == "" ==> message == "Invalid input"
  {
    if issues[0] != "" then issues[0] else "Invalid input"
  }

  /** The first issue is the first failing check of the first failing key. */
  lemma {:induction false} FirstIssueOfRejectedKey(schema: Schema, body: Json, formats: Formats, k: int)
    requires FirstRejected(schema, body, formats, k)
    ensures Issues(schema, body, formats) != []
    ensures Issues(schema, body, formats)[0] == RuleIssues(body, schema[k].0, schema[k].1, formats)[0]
  {
    var issues := Issues(schema, body, formats);
    var k' :| FirstRejected(schema, body, formats, k')
      && issues[0] == RuleIssues(body, schema[k'].0, schema[k'].1, formats)[0];
    assert k' == k;
  }
  // Unfolding facts for schemas written as literals.

  lemma AcceptsStr1(body: Json, key: string, c0: Check, formats: Formats)
    ensures Accepts(body, key, Str([c0]), formats) <==> key in body && Holds(c0, body[key], formats)
  {
    if Accepts(body, key, Str([c0]), formats) {
      assert Holds([c0][0], body[key], formats);
    }
  }

  lemma AcceptsStr2(body: Json, key: string, c0: Check, c1: Check, formats: Formats)
    ensures Accepts(body, key, Str([c0, c1]), formats)
      <==> key in body && Holds(c0, body[key], formats) && Holds(c1, body[key], formats)
  {
    if key in body && Holds(c0, body[key], formats) && Holds(c1, body[key], formats) {
      forall i | 0 <= i < 2 ensures Holds([c0, c1][i], body[key], formats) {
        if i == 0 {}
      }
    }
    if Accepts(body, key, Str([c0, c1]), formats) {
      assert Holds([c0, c1][0], body[key], formats) && Holds([c0, c1][1], body[key], formats);
    }
  }

  lemma AcceptsStr3(body: Json, key: string, c0: Check, c1: Check, c2: Check, formats: Formats)
    ensures Accepts(body, key, Str([c0, c1, c2]), formats)
      <==> (key in body && Holds(c0, body[key], formats) && Holds(c1, body[key], formats)
        && Holds(c2, body[key], formats))
  {
    var cs := [c0, c1, c2];
    if key in body && Holds(c0, body[key], formats) && Holds(c1, body[key], formats)
      && Holds(c2, body[key], formats) {
      forall i | 0 <= i < 3 ensures Holds(cs[i], body[key], formats) {
        if i == 0 {} else if i == 1 {}
      }
    }
    if Accepts(body, key, Str(cs), formats) {
      assert Holds(cs[0], body[key], formats) && Holds(cs[1], body[key], formats)
        && Holds(cs[2], body[key], formats);
    }
  }

  lemma Valid2(schema: Schema, body: Json, formats: Formats)
    requires |schema| == 2
    ensures Valid(schema, body, formats)
      <==> Accepts(body, schema[0].0, schema[0].1, formats) && Accepts(body, schema[1].0, schema[1].1, formats)
  {
    if Accepts(body, schema[0].0, schema[0].1, formats) && Accepts(body, schema[1].0, schema[1].1, formats) {
      forall k | 0 <= k < 2 ensures Accepts(body, schema[k].0, schema[k].1, formats) {
        if k == 0 {}
      }
    }
  }

  lemma Valid4(schema: Schema, body: Json, formats: Formats)
    requires |schema| == 4
    ensures Valid(schema, body, formats)
      <==> (Accepts(body, schema[0].0, schema[0].1, formats) && Accepts(body, schema[1].0, schema[1].1, formats)
        && Accepts(body, schema[2].0, schema[2].1, formats) && Accepts(body, schema[3].0, schema[3].1, formats))
  {
    if Accepts(body, schema[0].0, schema[0].1, formats) && Accepts(body, schema[1].0, schema[1].1, formats)
      && Accepts(body, schema[2].0, schema[2].1, formats) && Accepts(body, schema[3].0, schema[3].1, formats) {
      forall k | 0 <= k < 4 ensures Accepts(body, schema[k].0, schema[k].1, formats) {
        if k == 0 {} else if k == 1 {} else if k == 2 {}
      }
    }
  }

  lemma Valid5(schema: Schema, body: Json, formats: Formats)
    requires |schema| == 5
    ensures Valid(schema, body, formats)
      <==> (Accepts(body, schema[0].0, schema[0].1, formats) && Accepts(body, schema[1].0, schema[1].1, formats)
        && Accepts(body, schema[2].0, schema[2].1, formats) && Accepts(body, schema[3].0, schema[3].1, formats)
        && Accepts(body, schema[4].0, schema[4].1, formats))
  {
    if Accepts(body, schema[0].0, schema[0].1, formats) && Accepts(body, schema[1].0, schema[1].1, formats)
      && Accepts(body, schema[2].0, schema[2].1, formats) && Accepts(body, schema[3].0, schema[3].1, formats)
      && Accepts(body, schema[4].0, schema[4].1, formats) {
      forall k | 0 <= k < 5 ensures Accepts(body, schema[k].0, schema[k].1, formats) {
        if k == 0 {} else if k == 1 {} else if k == 2 {} else if k == 3 {}
      }
    }
  }
}
