/** `POST /contact`: the Joi schema, validated with `abortEarly: false`, and
    the choice between rejecting, accepting without a database, inserting and
    failing.

    Joi's email grammar is the parameter `isEmail`; nothing is assumed about
    it. The schema is checked as Joi v17 checks an object: each of the five
    keys in schema order, then the keys the schema does not declare. */
module Contact {
  import opened Types

  datatype Field = Name | Email | Phone | Service | Message

  /** The schema's keys, in declaration order. */
  const Fields: seq<Field> := [Name, Email, Phone, Service, Message]

  function Key(f: Field): string
  {
    match f
    case Name => "name"
    case Email => "email"
    case Phone => "phone"
    case Service => "service"
    case Message => "message"
  }

  const SchemaKeys: set<string> := {"name", "email", "phone", "service", "message"}

  const Services: seq<string> :=
    ["isolamento", "isolamento-metalico", "ar-condicionado", "dutos", "outros"]

  const NameMin: nat := 3
  const NameMax: nat := 50
  const MessageMin: nat := 10

  /** The Joi error kinds the schema can raise for one key. */
  datatype Rule =
    | Required          // any.required
    | NotListed         // any.only
    | NotString         // string.base
    | EmptyString       // string.empty
    | TooShort(limit: nat)  // string.min
    | TooLong(limit: nat)   // string.max
    | NotEmail          // string.email

  /** One entry of `error.details`. */
  datatype Violation = Violation(field: Field, rule: Rule)

  function Lookup(b: Body, f: Field): Option<Value>
  {
    if Key(f) in b then Some(b[Key(f)]) else None
  }

  /** What the schema accepts for each key, stated positively. */
  predicate FieldOk(f: Field, v: Option<Value>, isEmail: string -> bool)
  {
    match f
    case Name => v.Some? && v.value.Str? && NameMin <= |v.value.s| <= NameMax
    case Email => v.Some? && v.value.Str? && v.value.s != "" && isEmail(v.value.s)
    case Phone => v.None? || v.value.Str?
    case Service => v.Some? && v.value.Str? && v.value.s in Services
    case Message => v.Some? && v.value.Str? && |v.value.s| >= MessageMin
  }

  /** The rules of `.min()`, `.max()` and `.email()`, run on a non-empty string. */
  function RuleViolations(f: Field, s: string, isEmail: string -> bool): seq<Violation>
  {
    match f
    case Name =>
      (if |s| < NameMin then [Violation(Name, TooShort(NameMin))] else [])
      + (if |s| > NameMax then [Violation(Name, TooLong(NameMax))] else [])
    case Email => if isEmail(s) then [] else [Violation(Email, NotEmail)]
    case Message => if |s| < MessageMin then [Violation(Message, TooShort(MessageMin))] else []
    case Phone => []
    case Service => []
  }

  /** The errors Joi reports for one key: a missing required key; a value
      outside `.valid(...)`; then the base string check (non-string or empty
      string, each of which ends the key's validation); then every rule. */
  function FieldViolations(f: Field, v: Option<Value>, isEmail: string -> bool): (r: seq<Violation>)
    ensures r == [] <==> FieldOk(f, v, isEmail)
    ensures forall x :: x in r ==> x.field == f
  {
    match v
    case None => if f == Phone then [] else [Violation(f, Required)]
    case Some(x) =>
      if f == Phone && x == Str("") then []   // .allow("")
      else if f == Service && x.Str? && x.s in Services then []
      else
        (if f == Service then [Violation(Service, NotListed)] else [])
        + (if !x.Str? then [Violation(f, NotString)]
           else if x.s == "" then [Violation(f, EmptyString)]
           else RuleViolations(f, x.s, isEmail))
  }

  /** The outcome of `schema.validate(req.body, { abortEarly: false })`:
      the per-key errors in schema order, and the undeclared keys
      (object.unknown), whose relative order the model does not keep. */
  datatype Validation = Validation(violations: seq<Violation>, unknown: set<string>) {
    predicate Passed() { violations == [] && unknown == {} }
  }

  /** Joi accepts the body: every key meets its rule and nothing else is
      present. An undefined body is accepted, since the object schema is not
      `.required()`. */
  predicate Accepts(body: Option<Body>, isEmail: string -> bool)
  {
    body.Some? ==>
      body.value.Keys <= SchemaKeys
      && forall f: Field :: FieldOk(f, Lookup(body.value, f), isEmail)
  }

  /** The errors of the given keys, concatenated in order. */
  function Collect(b: Body, fs: seq<Field>, isEmail: string -> bool): (r: seq<Violation>)
    ensures r == [] <==> forall f :: f in fs ==> FieldOk(f, Lookup(b, f), isEmail)
    // exactly the errors of the given keys
    ensures forall x :: x in r <==> x.field in fs && x in FieldViolations(x.field, Lookup(b, x.field), isEmail)
  {
    if fs == [] then []
    else FieldViolations(fs[0], Lookup(b, fs[0]), isEmail) + Collect(b, fs[1..], isEmail)
  }

  function Validate(body: Option<Body>, isEmail: string -> bool): (r: Validation)
    // no error exactly when every rule holds
    ensures r.Passed() <==> Accepts(body, isEmail)
    ensures body.None? ==> r.violations == []
    ensures r.unknown == (if body.Some? then body.value.Keys - SchemaKeys else {})
  {
    if body.None? then Validation([], {})
    else
      AllFieldsListed();
      Validation(Collect(body.value, Fields, isEmail), body.value.Keys - SchemaKeys)
  }

  lemma AllFieldsListed()
    ensures forall f: Field :: f in Fields
  {
    forall f: Field ensures f in Fields { assert f == Fields[KeyIndex(f)]; }
  }

  /** Validation does not stop at the first error: every key that breaks its
      rule is reported. */
  lemma ValidateReportsEveryBrokenKey(b: Body, f: Field, isEmail: string -> bool)
    requires !FieldOk(f, Lookup(b, f), isEmail)
    ensures exists x :: x in Validate(Some(b), isEmail).violations && x.field == f
  {
    AllFieldsListed();
    var x := FieldViolations(f, Lookup(b, f), isEmail)[0];
    assert x in Validate(Some(b), isEmail).violations;
  }

  /** Every reported error is about a key that breaks its rule, and is one
      of the errors Joi raises for that key's value. */
  lemma ValidateReportsOnlyBrokenKeys(b: Body, x: Violation, isEmail: string -> bool)
    requires x in Validate(Some(b), isEmail).violations
    ensures !FieldOk(x.field, Lookup(b, x.field), isEmail)
    ensures x in FieldViolations(x.field, Lookup(b, x.field), isEmail)
  {
  }

  /** The position of a key in the schema. */
  function KeyIndex(f: Field): (i: nat)
    ensures i < |Fields| && Fields[i] == f
  {
    match f
    case Name => 0
    case Email => 1
    case Phone => 2
    case Service => 3
    case Message => 4
  }

  const InvalidError := "Dados inválidos"
  const OfflineMessage := "Mensagem recebida! Entraremos em contato em breve."
  const OfflineNote := "Sistema temporariamente offline, mas sua mensagem foi registrada."
  const SavedMessage := "Mensagem enviada com sucesso! Retornaremos em breve."
  const SaveError := "Erro ao processar sua mensagem. Tente novamente mais tarde."
  const CollectionName := "contatos"

  /** The JSON response the route sends. */
  datatype Reply =
    | Invalid(details: seq<Violation>, unknown: set<string>)  // 400 { error, details }
    | Accepted(message: string, note: Option<string>)          // 200 { message, success: true[, note] }
    | Failed(error: string)                                    // 500 { error, success: false }

  function StatusOf(r: Reply): nat
  {
    match r
    case Invalid(_, _) => 400
    case Accepted(_, _) => 200
    case Failed(_) => 500
  }

  /** One `insertOne` call on a collection. */
  datatype Insert = Insert(collection: string, document: Body)

  datatype Submission = Submission(reply: Reply, inserts: seq<Insert>)

  const IpKey := "ipAddress"
  const CreatedKey := "createdAt"
  const UpdatedKey := "updatedAt"

  /** `{ ...req.body, ipAddress: req.ip, createdAt: new Date(), updatedAt: new Date() }`;
      the two clock readings are separate inputs. */
  function NewContact(body: Option<Body>, ip: string, createdAt: int, updatedAt: int): (d: Body)
    ensures d.Keys == (if body.Some? then body.value.Keys else {}) + {IpKey, CreatedKey, UpdatedKey}
    ensures d[IpKey] == Str(ip) && d[CreatedKey] == Date(createdAt) && d[UpdatedKey] == Date(updatedAt)
    ensures forall k :: body.Some? && k in body.value && k !in {IpKey, CreatedKey, UpdatedKey} ==>
              d[k] == body.value[k]
  {
    var spread := if body.Some? then body.value else map[];
    spread[IpKey := Str(ip)][CreatedKey := Date(createdAt)][UpdatedKey := Date(updatedAt)]
  }

  /** The route handler, given the (sanitised) body, `req.db`, `req.ip`, the
      two clock readings and whether `insertOne` resolves. */
  function Submit(body: Option<Body>, db: Option<Db>, ip: string, createdAt: int, updatedAt: int,
                  insertOk: bool, isEmail: string -> bool): (r: Submission)
    // a body the schema rejects gets 400 with every violation, and the database is not used
    ensures !Accepts(body, isEmail) ==>
              r.inserts == [] && r.reply == Invalid(Validate(body, isEmail).violations, Validate(body, isEmail).unknown)
    ensures StatusOf(r.reply) == 400 <==> !Accepts(body, isEmail)
    // without a database a valid submission is acknowledged with the offline note and nothing is inserted
    ensures Accepts(body, isEmail) && db.None? ==> r.inserts == []
    ensures Accepts(body, isEmail) && db.None? ==>
              r.reply == (if body.Some? then Accepted(OfflineMessage, Some(OfflineNote)) else Failed(SaveError))
    // with a database exactly one contact is inserted, then 200; 500 when the insert throws, or
    // when the log line after it reads `req.body.email` of an undefined body
    ensures Accepts(body, isEmail) && db.Some? ==>
              r.inserts == [Insert(CollectionName, NewContact(body, ip, createdAt, updatedAt))]
              && r.reply == (if insertOk && body.Some? then Accepted(SavedMessage, None) else Failed(SaveError))
    // success is reported only for a defined body the schema accepts
    ensures r.reply.Accepted? ==> body.Some? && Accepts(body, isEmail)
  {
    var v := Validate(body, isEmail);
    if !v.Passed() then
      Submission(Invalid(v.violations, v.unknown), [])
    else if db.None? then
      // the log line reads `req.body.email`, which throws when the body is undefined
      if body.None? then Submission(Failed(SaveError), [])
      else Submission(Accepted(OfflineMessage, Some(OfflineNote)), [])
    else
      var doc := NewContact(body, ip, createdAt, updatedAt);
      // the insert happens first; the success log line then reads `req.body.email`
      Submission(if insertOk && body.Some? then Accepted(SavedMessage, None) else Failed(SaveError),
                 [Insert(CollectionName, doc)])
  }

  /** Every document handed to the database carries a valid contact: the five
      fields meet the schema, the body brought no other key, and the server
      added the address and the two timestamps. */
  lemma InsertedContactsAreValid(body: Option<Body>, db: Option<Db>, ip: string, createdAt: int, updatedAt: int,
                                 insertOk: bool, isEmail: string -> bool)
    requires body.Some?
    ensures forall i :: 0 <= i < |Submit(body, db, ip, createdAt, updatedAt, insertOk, isEmail).inserts| ==>
              var d := Submit(body, db, ip, createdAt, updatedAt, insertOk, isEmail).inserts[i].document;
              && d.Keys <= SchemaKeys + {IpKey, CreatedKey, UpdatedKey}
              && (forall f: Field :: FieldOk(f, Lookup(d, f), isEmail))
              && d[CreatedKey] == Date(createdAt) && d[UpdatedKey] == Date(updatedAt)
  {
    var r := Submit(body, db, ip, createdAt, updatedAt, insertOk, isEmail);
    if r.inserts != [] {
      var d := NewContact(body, ip, createdAt, updatedAt);
      forall f: Field ensures FieldOk(f, Lookup(d, f), isEmail) {
        assert Key(f) !in {IpKey, CreatedKey, UpdatedKey};
        assert Lookup(d, f) == Lookup(body.value, f);
      }
    }
  }

  /** With an undefined body and a database, the schema passes, a record
      holding only the three server fields is stored, and the log line after
      the insert throws, so the reply is 500. */
  lemma UndefinedBodyStoresServerFieldsOnly(db: Db, ip: string, createdAt: int, updatedAt: int,
                                            insertOk: bool, isEmail: string -> bool)
    ensures var r := Submit(None, Some(db), ip, createdAt, updatedAt, insertOk, isEmail);
            && r.reply == Failed(SaveError)
            && |r.inserts| == 1
            && r.inserts[0].document.Keys == {IpKey, CreatedKey, UpdatedKey}
  {
  }

  /** No two schema keys are the same string. */
  lemma KeysDistinct()
    ensures forall f: Field, g: Field :: Key(f) == Key(g) ==> f == g
  {
    assert Key(Phone) != Key(Email) by { assert Key(Phone)[0] != Key(Email)[0]; }
    assert Key(Service) != Key(Message) by { assert Key(Service)[0] != Key(Message)[0]; }
  }

  /** A well-formed submission. */
  const GoodExample: Body :=
    map[Key(Name) := Str("Ana Silva"), Key(Email) := Str("ana@example.com"), Key(Phone) := Str(""),
        Key(Service) := Str("dutos"), Key(Message) := Str("Preciso de um orçamento para isolamento térmico.")]

  /** All five values are valid (given that the address is an email), so the
      contact is stored with the server's fields added, and the reply is 200. */
  lemma ValidExampleIsStored(db: Db, ip: string, t: int, isEmail: string -> bool)
    requires isEmail("ana@example.com")
    ensures var r := Submit(Some(GoodExample), Some(db), ip, t, t, true, isEmail);
            && r.reply == Accepted(SavedMessage, None) && StatusOf(r.reply) == 200
            && r.inserts == [Insert(CollectionName, GoodExample[IpKey := Str(ip)][CreatedKey := Date(t)][UpdatedKey := Date(t)])]
  {
    KeysDistinct();
    assert Lookup(GoodExample, Name) == Some(Str("Ana Silva"));
    assert Lookup(GoodExample, Email) == Some(Str("ana@example.com"));
    assert Lookup(GoodExample, Phone) == Some(Str(""));
    assert Lookup(GoodExample, Service) == Some(Str("dutos"));
    assert Lookup(GoodExample, Message) == Some(Str("Preciso de um orçamento para isolamento térmico."));
    assert forall f: Field :: FieldOk(f, Lookup(GoodExample, f), isEmail);
    assert GoodExample.Keys <= SchemaKeys;
  }

  /** A submission that breaks four rules at once: short name, malformed
      email, unknown service and short message, with no phone. */
  const BadExample: Body :=
    map[Key(Name) := Str("Al"), Key(Email) := Str("bad"),
        Key(Service) := Str("invalid-service"), Key(Message) := Str("hi")]

  lemma BadExampleFields(isEmail: string -> bool)
    requires !isEmail("bad")
    ensures FieldViolations(Name, Lookup(BadExample, Name), isEmail) == [Violation(Name, TooShort(3))]
    ensures FieldViolations(Email, Lookup(BadExample, Email), isEmail) == [Violation(Email, NotEmail)]
    ensures FieldViolations(Phone, Lookup(BadExample, Phone), isEmail) == []
    ensures FieldViolations(Service, Lookup(BadExample, Service), isEmail) == [Violation(Service, NotListed)]
    ensures FieldViolations(Message, Lookup(BadExample, Message), isEmail) == [Violation(Message, TooShort(10))]
  {
    KeysDistinct();
    assert Lookup(BadExample, Name) == Some(Str("Al"));
    assert Lookup(BadExample, Email) == Some(Str("bad"));
    assert Lookup(BadExample, Phone) == None;
    assert Lookup(BadExample, Service) == Some(Str("invalid-service"));
    assert "invalid-service" !in Services;
    assert Lookup(BadExample, Message) == Some(Str("hi"));
  }

  lemma BadExampleTail(isEmail: string -> bool)
    requires !isEmail("bad")
    ensures Collect(BadExample, [Phone, Service, Message], isEmail)
            == [Violation(Service, NotListed), Violation(Message, TooShort(10))]
  {
    BadExampleFields(isEmail);
    assert Collect(BadExample, [Message], isEmail) == [Violation(Message, TooShort(10))];
    assert [Service, Message][1..] == [Message];
    assert [Phone, Service, Message][1..] == [Service, Message];
  }

  lemma BadExampleMiddle(isEmail: string -> bool)
    requires !isEmail("bad")
    ensures Collect(BadExample, [Email, Phone, Service, Message], isEmail)
            == [Violation(Email, NotEmail), Violation(Service, NotListed), Violation(Message, TooShort(10))]
  {
    BadExampleFields(isEmail);
    BadExampleTail(isEmail);
    assert [Email, Phone, Service, Message][1..] == [Phone, Service, Message];
  }

  /** The errors of that submission, collected over the schema keys. */
  lemma BadExampleCollected(isEmail: string -> bool)
    requires !isEmail("bad")
    ensures Collect(BadExample, Fields, isEmail) ==
              [Violation(Name, TooShort(3)), Violation(Email, NotEmail),
               Violation(Service, NotListed), Violation(Message, TooShort(10))]
  {
    BadExampleFields(isEmail);
    BadExampleMiddle(isEmail);
    assert Fields[0] == Name && Fields[1..] == [Email, Phone, Service, Message];
    PrependOne(Violation(Name, TooShort(3)),
               [Violation(Email, NotEmail), Violation(Service, NotListed), Violation(Message, TooShort(10))]);
  }

  lemma PrependOne<T>(a: T, s: seq<T>)
    requires |s| == 3
    ensures [a] + s == [a, s[0], s[1], s[2]]
  {
  }

  /** It breaks four rules at once and all four are reported, in schema order. */
  lemma InvalidExampleReportsAll(isEmail: string -> bool)
    requires !isEmail("bad")
    ensures Validate(Some(BadExample), isEmail).violations ==
              [Violation(Name, TooShort(3)), Violation(Email, NotEmail),
               Violation(Service, NotListed), Violation(Message, TooShort(10))]
  {
    BadExampleCollected(isEmail);
  }
}
