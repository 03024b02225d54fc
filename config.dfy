/**
 * The configuration read from the environment at start-up and validated against a fixed
 * schema: four required non-empty strings and `DB_TYPE`, one of three backend names.
 * Validation stops at the first invalid key, in schema order, and the constructor throws
 * `Config validation error: ` followed by that key's message.
 */
module Configuration {
  import opened Wrappers
  import opened Strings

  datatype DbType = Pinecone | Faiss | Chroma

  datatype Config = Config(
    openAiApiKey: string,
    pineconeApiKey: string,
    pineconeEnvironment: string,
    pineconeIndex: string,
    dbType: DbType)

  /** The process environment: variable name to value. */
  type Env = map<string, string>

  datatype Rule = RequiredString | RequiredOneOf(valids: seq<string>)

  /** A schema key; `orEmpty` marks the keys read as `process.env.KEY || ''`. */
  datatype Field = Field(key: string, rule: Rule, orEmpty: bool)

  const DbTypeNames: seq<string> := ["pinecone", "faiss", "chroma"]

  const Schema: seq<Field> := [
    Field("OPENAI_API_KEY", RequiredString, true),
    Field("PINECONE_API_KEY", RequiredString, true),
    Field("PINECONE_ENVIRONMENT", RequiredString, true),
    Field("PINECONE_INDEX", RequiredString, true),
    Field("DB_TYPE", RequiredOneOf(DbTypeNames), false)
  ]

  const ErrorPrefix: string := "Config validation error: "

  /** Why a key was rejected; the validator reports only the first. */
  datatype Detail = Required(key: string) | Empty(key: string) | NotOneOf(key: string, valids: seq<string>)

  /** The value handed to the validator: `undefined` is None. */
  function Input(env: Env, f: Field): (v: Option<string>)
    ensures v.None? <==> f.key !in env && !f.orEmpty
    ensures f.key in env ==> v == Some(env[f.key])
    ensures f.key !in env && f.orEmpty ==> v == Some("")
  {
    if f.key in env then Some(env[f.key])
    else if f.orEmpty then Some("")
    else None
  }

  /** The check of one key: required, then (for an enumeration) one of the allowed values, else non-empty. */
  function Check(f: Field, value: Option<string>): (d: Option<Detail>)
    ensures d.Some? ==> d.value.key == f.key
    ensures d.None? <==>
              && value.Some?
              && (f.rule.RequiredOneOf? ==> value.value in f.rule.valids)
              && (f.rule.RequiredString? ==> value.value != "")
    ensures value.None? ==> d == Some(Required(f.key))
  {
    match value
    case None => Some(Required(f.key))
    case Some(s) =>
      match f.rule
      case RequiredOneOf(valids) => if s in valids then None else Some(NotOneOf(f.key, valids))
      case RequiredString => if s == "" then Some(Empty(f.key)) else None
  }

  function FieldError(env: Env, f: Field): Option<Detail>
  {
    Check(f, Input(env, f))
  }

  /** Validation in schema order, stopping at the first invalid key. */
  function FirstError(env: Env, fields: seq<Field>): (d: Option<Detail>)
    ensures d.Some? ==> exists i :: 0 <= i < |fields| && d == FieldError(env, fields[i])
    decreases |fields|
  {
    if fields == [] then None
    else if FieldError(env, fields[0]).Some? then FieldError(env, fields[0])
    else FirstError(env, fields[1..])
  }

  /** The validator's wording for each kind of rejection. */
  function DetailMessage(d: Detail): (message: string)
    ensures |message| > |d.key| + 2 && message[..|d.key| + 2] == "\"" + d.key + "\""
  {
    match d
    case Required(key) => "\"" + key + "\" is required"
    case Empty(key) => "\"" + key + "\" is not allowed to be empty"
    case NotOneOf(key, valids) => "\"" + key + "\" must be one of [" + Join(valids, ", ") + "]"
  }

  function DbTypeName(t: DbType): string
  {
    match t
    case Pinecone => "pinecone"
    case Faiss => "faiss"
    case Chroma => "chroma"
  }

  function ParseDbType(s: string): (t: Option<DbType>)
    ensures t.Some? <==> s in DbTypeNames
    ensures t.Some? ==> DbTypeName(t.value) == s
  {
    if s == "pinecone" then Some(Pinecone)
    else if s == "faiss" then Some(Faiss)
    else if s == "chroma" then Some(Chroma)
    else None
  }

  function Lookup(env: Env, key: string): string
  {
    if key in env then env[key] else ""
  }

  /** `new Config()`: validate, then copy the validated values into the fields. */
  function NewConfig(env: Env): (r: Result<Config, string>)
    ensures r.Success? <==> FirstError(env, Schema).None?
    ensures r.Failure? ==> |r.error| > |ErrorPrefix| && r.error[..|ErrorPrefix|] == ErrorPrefix
  {
    match FirstError(env, Schema)
    case Some(d) => Failure(ErrorPrefix + DetailMessage(d))
    case None =>
      FirstErrorNone(env, Schema);
      assert FieldError(env, Schema[4]).None?;
      Success(Config(
        Lookup(env, "OPENAI_API_KEY"),
        Lookup(env, "PINECONE_API_KEY"),
        Lookup(env, "PINECONE_ENVIRONMENT"),
        Lookup(env, "PINECONE_INDEX"),
        ParseDbType(env["DB_TYPE"]).value))
  }

  /** Validation passes exactly when every key passes its check. */
  lemma {:induction false} FirstErrorNone(env: Env, fields: seq<Field>)
    ensures FirstError(env, fields).None? <==> forall i :: 0 <= i < |fields| ==> FieldError(env, fields[i]).None?
    decreases |fields|
  {
    if fields != [] {
      FirstErrorNone(env, fields[1..]);
      assert forall i :: 1 <= i < |fields| ==> fields[i] == fields[1..][i - 1];
    }
  }

  /** The error reported is that of the first key, in schema order, that fails its check. */
  lemma {:induction false} FirstErrorIsFirst(env: Env, fields: seq<Field>, i: nat)
    requires i < |fields| && FieldError(env, fields[i]).Some?
    requires forall j :: 0 <= j < i ==> FieldError(env, fields[j]).None?
    ensures FirstError(env, fields) == FieldError(env, fields[i])
    decreases i
  {
    if i > 0 {
      assert FieldError(env, fields[0]).None?;
      assert forall j :: 0 <= j < i - 1 ==> fields[1..][j] == fields[j + 1];
      FirstErrorIsFirst(env, fields[1..], i - 1);
    }
  }

  /**
   * Construction succeeds exactly when the four string variables are set and non-empty and
   * `DB_TYPE` is set to exactly one of 'pinecone', 'faiss', 'chroma'.
   */
  lemma NewConfigAccepts(env: Env)
    ensures NewConfig(env).Success? <==>
              && "OPENAI_API_KEY" in env && env["OPENAI_API_KEY"] != ""
              && "PINECONE_API_KEY" in env && env["PINECONE_API_KEY"] != ""
              && "PINECONE_ENVIRONMENT" in env && env["PINECONE_ENVIRONMENT"] != ""
              && "PINECONE_INDEX" in env && env["PINECONE_INDEX"] != ""
              && "DB_TYPE" in env && env["DB_TYPE"] in {"pinecone", "faiss", "chroma"}
  {
    FirstErrorNone(env, Schema);
    assert (forall i :: 0 <= i < |Schema| ==> FieldError(env, Schema[i]).None?) <==>
           && FieldError(env, Schema[0]).None? && FieldError(env, Schema[1]).None? && FieldError(env, Schema[2]).None?
           && FieldError(env, Schema[3]).None? && FieldError(env, Schema[4]).None? by {
      if && FieldError(env, Schema[0]).None? && FieldError(env, Schema[1]).None? && FieldError(env, Schema[2]).None?
         && FieldError(env, Schema[3]).None? && FieldError(env, Schema[4]).None? {
        forall i | 0 <= i < |Schema|
          ensures FieldError(env, Schema[i]).None?
        {
          assert i == 0 || i == 1 || i == 2 || i == 3 || i == 4;
        }
      }
    }
    assert FieldError(env, Schema[0]).None? <==> "OPENAI_API_KEY" in env && env["OPENAI_API_KEY"] != "";
    assert FieldError(env, Schema[1]).None? <==> "PINECONE_API_KEY" in env && env["PINECONE_API_KEY"] != "";
    assert FieldError(env, Schema[2]).None? <==> "PINECONE_ENVIRONMENT" in env && env["PINECONE_ENVIRONMENT"] != "";
    assert FieldError(env, Schema[3]).None? <==> "PINECONE_INDEX" in env && env["PINECONE_INDEX"] != "";
    assert FieldError(env, Schema[4]).None? <==> "DB_TYPE" in env && env["DB_TYPE"] in DbTypeNames;
  }

  /** On success every field holds the environment's value for its key. */
  lemma NewConfigCopiesFields(env: Env)
    requires NewConfig(env).Success?
    ensures var c := NewConfig(env).value;
            && "OPENAI_API_KEY" in env && c.openAiApiKey == env["OPENAI_API_KEY"]
            && "PINECONE_API_KEY" in env && c.pineconeApiKey == env["PINECONE_API_KEY"]
            && "PINECONE_ENVIRONMENT" in env && c.pineconeEnvironment == env["PINECONE_ENVIRONMENT"]
            && "PINECONE_INDEX" in env && c.pineconeIndex == env["PINECONE_INDEX"]
            && "DB_TYPE" in env && DbTypeName(c.dbType) == env["DB_TYPE"]
  {
    NewConfigAccepts(env);
  }

  /** On failure the message is the fixed prefix followed by the first failing key's message only. */
  lemma NewConfigReportsFirstError(env: Env, i: nat)
    requires i < |Schema| && FieldError(env, Schema[i]).Some?
    requires forall j :: 0 <= j < i ==> FieldError(env, Schema[j]).None?
    ensures NewConfig(env) == Failure(ErrorPrefix + DetailMessage(FieldError(env, Schema[i]).value))
  {
    FirstErrorIsFirst(env, Schema, i);
  }

  /**
   * A missing string variable becomes '' and is rejected as empty, never as missing; a
   * missing `DB_TYPE` is rejected as required, and any other value outside the three names
   * (the empty string included) as not one of them.
   */
  lemma MissingAndInvalidValues(env: Env)
    ensures forall i :: 0 <= i < 4 && Schema[i].key !in env ==> FieldError(env, Schema[i]) == Some(Empty(Schema[i].key))
    ensures "DB_TYPE" !in env ==> FieldError(env, Schema[4]) == Some(Required("DB_TYPE"))
    ensures "DB_TYPE" in env && env["DB_TYPE"] !in DbTypeNames ==>
              FieldError(env, Schema[4]) == Some(NotOneOf("DB_TYPE", DbTypeNames))
  {
  }

  /**
   * The message for a value outside three allowed ones quotes the key and lists the allowed
   * values in order, separated by ", ", between brackets (for `DB_TYPE`, the three names of
   * `DbTypeNames`).
   */
  lemma NotOneOfMessage(key: string, a: string, b: string, c: string)
    ensures DetailMessage(NotOneOf(key, [a, b, c])) == "\"" + key + "\" must be one of [" + (a + ", " + (b + ", " + c)) + "]"
  {
    assert [a, b, c][1..] == [b, c] && [b, c][1..] == [c];
    assert Join([b, c], ", ") == b + ", " + c;
    assert Join([a, b, c], ", ") == a + ", " + (b + ", " + c);
  }
}
