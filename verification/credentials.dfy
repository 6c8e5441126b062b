/**
 * The single administrator credential (backend/models/FormData.js) and the
 * `/register` and `/login` decisions of backend/index.js. The collection is a
 * map from `_id` to document, so the schema's fixed default key is what
 * limits it to one record.
 */
module Credentials {
  import opened Common

  /** The schema's default `_id`; automatic id generation is switched off. */
  const SingletonKey: string := "singleton"

  /** A credential document; the password is stored exactly as received. */
  datatype Credential = Credential(id: string, userId: Option<string>, password: Option<string>)

  type CredentialCollection = map<string, Credential>

  datatype CredentialError = RegistrationClosed | DuplicateCredentialKey(id: string)

  /**
   * A new document. The only source of an `_id` is the caller or the default
   * `singleton`: the schema generates none of its own.
   */
  function NewCredential(id: Option<string>, userId: Option<string>, password: Option<string>): (c: Credential)
    ensures id.None? ==> c.id == SingletonKey
    ensures id.Some? ==> c.id == id.value
    ensures c.userId == userId && c.password == password
  {
    Credential(if id.Some? then id.value else SingletonKey, userId, password)
  }

  /** Every document sits under its own `_id`. */
  predicate KeyedById(coll: CredentialCollection) {
    forall k :: k in coll ==> coll[k].id == k
  }

  /** Inserting a document: the primary key is unique. */
  function InsertCredential(coll: CredentialCollection, c: Credential): (r: Result<CredentialCollection, CredentialError>)
    ensures r.Ok? <==> c.id !in coll
    ensures r.Ok? ==> r.value == coll[c.id := c] && |r.value| == |coll| + 1
    ensures r.Err? ==> r.error == DuplicateCredentialKey(c.id)
  {
    if c.id in coll then Err(DuplicateCredentialKey(c.id)) else Ok(coll[c.id := c])
  }

  /** Inserts documents built with the default `_id`, one after another, skipping rejected ones. */
  function InsertDefaults(coll: CredentialCollection, users: seq<(Option<string>, Option<string>)>): CredentialCollection
    decreases |users|
  {
    if |users| == 0 then coll
    else
      var next := match InsertCredential(coll, NewCredential(None, users[0].0, users[0].1))
        case Ok(c') => c'
        case Err(_) => coll;
      InsertDefaults(next, users[1..])
  }

  lemma SingleKeyAtMostOne(coll: CredentialCollection)
    requires coll.Keys <= {SingletonKey}
    ensures |coll| <= 1
  {
    assert coll.Keys == {} || coll.Keys == {SingletonKey};
    assert |coll| == |coll.Keys|;
  }

  /** However many default-keyed documents are inserted, at most one credential record exists. */
  lemma {:induction false} DefaultKeyAllowsOneRecord(coll: CredentialCollection, users: seq<(Option<string>, Option<string>)>)
    requires coll.Keys <= {SingletonKey}
    ensures InsertDefaults(coll, users).Keys <= {SingletonKey}
    ensures |InsertDefaults(coll, users)| <= 1
    decreases |users|
  {
    if |users| == 0 {
      SingleKeyAtMostOne(coll);
    } else {
      var next := match InsertCredential(coll, NewCredential(None, users[0].0, users[0].1))
        case Ok(c') => c'
        case Err(_) => coll;
      assert next.Keys <= {SingletonKey};
      DefaultKeyAllowsOneRecord(next, users[1..]);
    }
  }

  datatype RegisterReply = RegisterReply(coll: CredentialCollection, result: Result<Credential, CredentialError>)

  /** `POST /register`: refused once any record exists; otherwise the record is created under the fixed key. */
  function Register(coll: CredentialCollection, userId: Option<string>, password: Option<string>): (r: RegisterReply)
    ensures r.result.Err? ==> r.coll == coll
    ensures |coll| > 0 <==> r.result == Err(RegistrationClosed)
    ensures |coll| == 0 ==>
              && r.result == Ok(Credential(SingletonKey, userId, password))
              && r.coll == map[SingletonKey := Credential(SingletonKey, userId, password)]
  {
    if |coll| > 0 then RegisterReply(coll, Err(RegistrationClosed))
    else
      var c := NewCredential(Some(SingletonKey), userId, password);
      match InsertCredential(coll, c)
      case Ok(coll') => RegisterReply(coll', Ok(c))
      case Err(e) => RegisterReply(coll, Err(e))
  }

  /** Registration keeps the collection to the fixed key and to at most one record. */
  lemma RegisterKeepsSingleton(coll: CredentialCollection, userId: Option<string>, password: Option<string>)
    requires coll.Keys <= {SingletonKey} && KeyedById(coll)
    ensures Register(coll, userId, password).coll.Keys <= {SingletonKey}
    ensures KeyedById(Register(coll, userId, password).coll)
    ensures |Register(coll, userId, password).coll| <= 1
  {
    SingleKeyAtMostOne(Register(coll, userId, password).coll);
  }

  /** The three answers of `POST /login`. */
  datatype LoginReply = NoRecordsFound | LoginSuccess | WrongPassword

  predicate HasUser(c: Credential, userId: string) {
    c.userId == Some(userId)
  }

  /** `POST /login`: `findOne({ userId })`, then exact comparison of the stored and given password. */
  ghost function Login(coll: CredentialCollection, userId: string, password: string): (r: LoginReply)
    ensures r == NoRecordsFound <==> forall k :: k in coll ==> !HasUser(coll[k], userId)
    ensures r == LoginSuccess ==> exists k :: k in coll && HasUser(coll[k], userId) && coll[k].password == Some(password)
    ensures r == WrongPassword ==> exists k :: k in coll && HasUser(coll[k], userId) && coll[k].password != Some(password)
  {
    if forall k :: k in coll ==> !HasUser(coll[k], userId) then NoRecordsFound
    else
      var k :| k in coll && HasUser(coll[k], userId);
      if coll[k].password == Some(password) then LoginSuccess else WrongPassword
  }

  /** With at most one record, the answer is decided by that record alone. */
  lemma LoginOnSingleRecord(coll: CredentialCollection, userId: string, password: string)
    requires |coll| <= 1
    ensures Login(coll, userId, password) == LoginSuccess <==>
              exists k :: k in coll && HasUser(coll[k], userId) && coll[k].password == Some(password)
  {
    if exists k :: k in coll && HasUser(coll[k], userId) && coll[k].password == Some(password) {
      var k :| k in coll && HasUser(coll[k], userId) && coll[k].password == Some(password);
      assert |coll.Keys - {k}| == |coll.Keys| - 1 <= 0;
      forall k' | k' in coll
        ensures k' == k
      {
        assert k' !in coll.Keys - {k};
      }
    }
  }

  /** The password comes back exactly as registered: it alone logs in, and other users are unknown. */
  lemma RegisterThenLogin(userId: string, password: string, other: string, otherUser: string)
    requires other != password && otherUser != userId
    ensures var coll := Register(map[], Some(userId), Some(password)).coll;
            && Login(coll, userId, password) == LoginSuccess
            && Login(coll, userId, other) == WrongPassword
            && Login(coll, otherUser, password) == NoRecordsFound
  {
    var coll := Register(map[], Some(userId), Some(password)).coll;
    assert SingletonKey in coll && HasUser(coll[SingletonKey], userId);
    LoginOnSingleRecord(coll, userId, password);
  }
}
