/**
  The two recursive redactors: `sanitize_replay_payload` for replay snapshots and
  `_sanitize` for audit payloads. The path regexes are the parameter `scrub`; what
  the theorems need of it is the predicate `WellBehaved`.
 */
module Redaction {
  import opened Wrappers
  import opened Text

  datatype Value =
    | Dict(entries: map<string, Value>)
    | List(items: seq<Value>)
    | Tuple(elements: seq<Value>)
    | Str(text: string)
    | Scalar(tag: int)

  const ENV_FRAGMENT := ".env"
  const REDACTED_ENV := "<redacted-env>"
  const REDACTED := Str("<redacted>")
  const SENSITIVE_KEY_PARTS := ["api_key", "apikey", "password", "passwd", "secret", "token"]

  predicate IsSensitiveKey(key: string) {
    exists i | 0 <= i < |SENSITIVE_KEY_PARTS| :: Contains(Lower(key), SENSITIVE_KEY_PARTS[i])
  }

  /** The path-regex pass settles after one application and never spells out `.env`. */
  ghost predicate WellBehaved(scrub: string -> string) {
    && (forall s :: scrub(scrub(s)) == scrub(s))
    && (forall s | !Contains(s, ENV_FRAGMENT) :: !Contains(scrub(s), ENV_FRAGMENT))
  }

  function SanitizeText(text: string, scrub: string -> string): string {
    scrub(Replace(text, ENV_FRAGMENT, REDACTED_ENV))
  }

  /** The replay redactor: one function, with the key and text rules written in place. */
  function SanitizeReplayPayload(value: Value, scrub: string -> string): Value {
    match value
    case Dict(entries) =>
      Dict(map key | key in entries ::
        if IsSensitiveKey(key) then REDACTED else SanitizeReplayPayload(entries[key], scrub))
    case List(items) =>
      List(seq(|items|, i requires 0 <= i < |items| => SanitizeReplayPayload(items[i], scrub)))
    case Tuple(items) =>
      Tuple(seq(|items|, i requires 0 <= i < |items| => SanitizeReplayPayload(items[i], scrub)))
    case Str(text) => Str(scrub(Replace(text, ENV_FRAGMENT, REDACTED_ENV)))
    case Scalar(_) => value
  }

  /** The audit redactor: the second copy, through its own helpers. */
  function SanitizeAuditPayload(value: Value, scrub: string -> string): Value {
    if value.Dict? then
      Dict(map key | key in value.entries ::
        if IsSensitiveKey(key) then REDACTED else SanitizeAuditPayload(value.entries[key], scrub))
    else if value.List? then
      List(seq(|value.items|, i requires 0 <= i < |value.items| => SanitizeAuditPayload(value.items[i], scrub)))
    else if value.Tuple? then
      Tuple(seq(|value.elements|,
                i requires 0 <= i < |value.elements| => SanitizeAuditPayload(value.elements[i], scrub)))
    else if value.Str? then
      Str(SanitizeText(value.text, scrub))
    else
      value
  }

  lemma {:induction false} RedactorsAgree(value: Value, scrub: string -> string)
    ensures SanitizeAuditPayload(value, scrub) == SanitizeReplayPayload(value, scrub)
  {
    match value
    case Dict(entries) => forall key | key in entries { RedactorsAgree(entries[key], scrub); }
    case List(items) => forall i | 0 <= i < |items| { RedactorsAgree(items[i], scrub); }
    case Tuple(items) => forall i | 0 <= i < |items| { RedactorsAgree(items[i], scrub); }
    case Str(_) =>
    case Scalar(_) =>
  }

  // ---------------------------------------------------------------- what one path sees

  datatype Step = Key(name: string) | Item(index: nat)

  function Lookup(value: Value, path: seq<Step>): Option<Value> {
    if path == [] then Some(value)
    else match (value, path[0])
      case (Dict(entries), Key(name)) => if name in entries then Lookup(entries[name], path[1..]) else None
      case (List(items), Item(i)) => if i < |items| then Lookup(items[i], path[1..]) else None
      case (Tuple(items), Item(i)) => if i < |items| then Lookup(items[i], path[1..]) else None
      case _ => None
  }

  /** Number of steps up to and including the first sensitive key; `None` if there is none. */
  function FirstSensitive(path: seq<Step>): (cut: Option<nat>)
    ensures cut.Some? ==> 0 < cut.value <= |path|
  {
    if path == [] then None
    else if path[0].Key? && IsSensitiveKey(path[0].name) then Some(1)
    else match FirstSensitive(path[1..])
      case None => None
      case Some(n) => Some(n + 1)
  }

  /**
    The redactor at every depth. A path without sensitive keys reaches the redacted form of
    what it reached before, and a path cut at its first sensitive key reaches `<redacted>`;
    either reaches nothing exactly when it reached nothing before, so no key, list length
    or tuple length changes.
   */
  lemma {:induction false} EveryPath(value: Value, path: seq<Step>, scrub: string -> string)
    ensures FirstSensitive(path).None? ==>
      Lookup(SanitizeReplayPayload(value, scrub), path) ==
      match Lookup(value, path) case None => None case Some(v) => Some(SanitizeReplayPayload(v, scrub))
    ensures FirstSensitive(path).Some? ==>
      var cut := path[..FirstSensitive(path).value];
      Lookup(SanitizeReplayPayload(value, scrub), cut) ==
      match Lookup(value, cut) case None => None case Some(_) => Some(REDACTED)
  {
    if path != [] {
      var step := path[0];
      var out := SanitizeReplayPayload(value, scrub);
      match (value, step)
      case (Dict(entries), Key(name)) =>
        if name in entries {
          if !IsSensitiveKey(name) {
            EveryPath(entries[name], path[1..], scrub);
            CutStep(path);
          } else {
            assert path[..1][1..] == [];
          }
        }
      case (List(items), Item(i)) =>
        if i < |items| { EveryPath(items[i], path[1..], scrub); CutStep(path); }
      case (Tuple(items), Item(i)) =>
        if i < |items| { EveryPath(items[i], path[1..], scrub); CutStep(path); }
      case _ =>
    }
  }

  lemma CutStep(path: seq<Step>)
    requires path != []
    requires !(path[0].Key? && IsSensitiveKey(path[0].name))
    ensures FirstSensitive(path).Some? <==> FirstSensitive(path[1..]).Some?
    ensures FirstSensitive(path).Some? ==>
      path[..FirstSensitive(path).value][1..] == path[1..][..FirstSensitive(path[1..]).value]
  {
  }

  // ---------------------------------------------------------------- secrets by name

  /** One of the six words stands in the key, whatever the case of its letters. */
  predicate NamesASecret(key: string) {
    var lower := Lower(key);
    || Contains(lower, "api_key") || Contains(lower, "apikey") || Contains(lower, "password")
    || Contains(lower, "passwd") || Contains(lower, "secret") || Contains(lower, "token")
  }

  lemma SensitiveKeysAre(key: string)
    ensures IsSensitiveKey(key) <==> NamesASecret(key)
    ensures NamesASecret(Upper(key)) <==> NamesASecret(key)
  {
    var parts := SENSITIVE_KEY_PARTS;
    assert parts[0] == "api_key" && parts[1] == "apikey" && parts[2] == "password";
    assert parts[3] == "passwd" && parts[4] == "secret" && parts[5] == "token";
    LowerReads(key);
    hide Contains, Lower, Upper;
  }

  lemma {:induction false} FirstSensitiveFinds(path: seq<Step>, k: nat)
    requires k < |path| && path[k].Key? && IsSensitiveKey(path[k].name)
    ensures FirstSensitive(path).Some? && FirstSensitive(path).value <= k + 1
  {
    hide IsSensitiveKey;
    if k > 0 { FirstSensitiveFinds(path[1..], k - 1); }
  }

  lemma {:induction false} NothingSensitive(path: seq<Step>)
    requires forall k | 0 <= k < |path| && path[k].Key? :: !IsSensitiveKey(path[k].name)
    ensures FirstSensitive(path).None?
  {
    hide IsSensitiveKey;
    if path != [] { NothingSensitive(path[1..]); }
  }

  lemma {:induction false} LookupPrefix(value: Value, path: seq<Step>, n: nat)
    requires n <= |path| && Lookup(value, path).Some?
    ensures Lookup(value, path[..n]).Some?
  {
    if n > 0 {
      var tail := path[1..];
      assert path[..n][1..] == tail[..n - 1];
      match (value, path[0])
      case (Dict(entries), Key(name)) => LookupPrefix(entries[name], tail, n - 1);
      case (List(items), Item(i)) => LookupPrefix(items[i], tail, n - 1);
      case (Tuple(items), Item(i)) => LookupPrefix(items[i], tail, n - 1);
    }
  }

  /** At any depth: whatever stands under a key that names a secret is gone at or above that key. */
  lemma EverySecretIsHidden(value: Value, path: seq<Step>, k: nat, scrub: string -> string)
    requires Lookup(value, path).Some? && k < |path| && path[k].Key? && NamesASecret(path[k].name)
    ensures exists cut | 0 < cut <= k + 1 ::
      Lookup(SanitizeReplayPayload(value, scrub), path[..cut]) == Some(Str("<redacted>"))
  {
    SensitiveKeysAre(path[k].name);
    FirstSensitiveFinds(path, k);
    var cut := FirstSensitive(path).value;
    LookupPrefix(value, path, cut);
    EveryPath(value, path, scrub);
  }

  lemma TextAlone(text: string, scrub: string -> string)
    ensures SanitizeReplayPayload(Str(text), scrub) == Str(scrub(Replace(text, ".env", "<redacted-env>")))
  {
  }

  /** A text no secret stands over keeps its place and loses its `.env` and its private paths, nothing else. */
  lemma OpenTextIsScrubbed(value: Value, path: seq<Step>, text: string, scrub: string -> string)
    requires Lookup(value, path) == Some(Str(text))
    requires forall k | 0 <= k < |path| && path[k].Key? :: !NamesASecret(path[k].name)
    ensures Lookup(SanitizeReplayPayload(value, scrub), path)
      == Some(Str(scrub(Replace(text, ".env", "<redacted-env>"))))
  {
    hide *;
    TextAlone(text, scrub);
    forall k | 0 <= k < |path| && path[k].Key? ensures !IsSensitiveKey(path[k].name) {
      SensitiveKeysAre(path[k].name);
    }
    NothingSensitive(path);
    EveryPath(value, path, scrub);
  }

  // ---------------------------------------------------------------- leaves

  ghost predicate NoEnvLeaf(value: Value) {
    match value
    case Dict(entries) => forall key | key in entries :: NoEnvLeaf(entries[key])
    case List(items) => forall i | 0 <= i < |items| :: NoEnvLeaf(items[i])
    case Tuple(items) => forall i | 0 <= i < |items| :: NoEnvLeaf(items[i])
    case Str(text) => !Contains(text, ".env")
    case Scalar(_) => true
  }

  lemma CleanText(text: string, scrub: string -> string)
    requires WellBehaved(scrub)
    ensures !Contains(SanitizeText(text, scrub), ENV_FRAGMENT)
    ensures SanitizeText(SanitizeText(text, scrub), scrub) == SanitizeText(text, scrub)
  {
    ContainsNeedsHead(REDACTED_ENV, ENV_FRAGMENT);
    ReplaceRemoves(text, ENV_FRAGMENT, REDACTED_ENV);
    ReplaceAbsent(SanitizeText(text, scrub), ENV_FRAGMENT, REDACTED_ENV);
  }

  lemma {:induction false} NoEnvFragmentSurvives(value: Value, scrub: string -> string)
    requires WellBehaved(scrub)
    ensures NoEnvLeaf(SanitizeReplayPayload(value, scrub))
  {
    ContainsNeedsHead("<redacted>", ENV_FRAGMENT);
    match value
    case Dict(entries) => forall key | key in entries { NoEnvFragmentSurvives(entries[key], scrub); }
    case List(items) => forall i | 0 <= i < |items| { NoEnvFragmentSurvives(items[i], scrub); }
    case Tuple(items) => forall i | 0 <= i < |items| { NoEnvFragmentSurvives(items[i], scrub); }
    case Str(text) => CleanText(text, scrub);
    case Scalar(_) =>
  }

  lemma {:induction false} RedactionIsIdempotent(value: Value, scrub: string -> string)
    requires WellBehaved(scrub)
    ensures SanitizeReplayPayload(SanitizeReplayPayload(value, scrub), scrub) == SanitizeReplayPayload(value, scrub)
  {
    match value
    case Dict(entries) => forall key | key in entries { RedactionIsIdempotent(entries[key], scrub); }
    case List(items) => forall i | 0 <= i < |items| { RedactionIsIdempotent(items[i], scrub); }
    case Tuple(items) => forall i | 0 <= i < |items| { RedactionIsIdempotent(items[i], scrub); }
    case Str(text) => CleanText(text, scrub);
    case Scalar(_) =>
  }
}
