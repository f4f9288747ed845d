/** Wire rules of the operator channel: the comparison of handshake proofs and the
    validation of an answer against the request it names.
    (src/helper/operator-protocol.ts) */
module OperatorProtocol {
  import opened Json

  const MAX_FRAME_BYTES := 64 * 1024
  const MAX_GRANT_TTL_SECONDS := 24 * 60 * 60
  const MAX_INPUT_CHARS := 10_000

  datatype Decision = Approve | Deny | Done | Abort

  datatype HumanKind = Acknowledge | Confirm | Choose | Input

  datatype GrantScope = SessionScope | WorkspaceScope

  datatype Grant = Grant(scope: GrantScope, ttlSeconds: int)

  /** What the daemon may say about one request. */
  datatype AnswerRules = AnswerRules(
    answers: seq<Decision>,
    humanKind: Option<HumanKind>,
    choiceCount: nat,
    grantable: Option<Text>)

  datatype Code = InvalidAnswer | GrantNotAllowed

  datatype AnswerCheck =
    | Accepted(decision: Decision, value: Option<Json>, grant: Option<Grant>)
    | Rejected(code: Code)

  // ---------- handshake proofs ----------

  predicate HexDigit(u: Unit) { 0x30 <= u <= 0x39 || 0x61 <= u <= 0x66 }

  /** 64 lower-case hexadecimal digits, the form of every SHA-256 proof. */
  predicate IsProof(t: Text) { |t| == 64 && forall i :: 0 <= i < |t| ==> HexDigit(t[i]) }

  function Nibble(u: Unit): nat
    requires HexDigit(u)
  {
    if u <= 0x39 then u - 0x30 else u - 0x61 + 10
  }

  /** `Buffer.from(t, "hex")` on text that is all hexadecimal digits. */
  function Bytes(t: Text): seq<nat>
    requires |t| % 2 == 0 && forall i :: 0 <= i < |t| ==> HexDigit(t[i])
  {
    if t == [] then [] else [Nibble(t[0]) * 16 + Nibble(t[1])] + Bytes(t[2..])
  }

  lemma {:induction false} BytesInjective(a: Text, b: Text)
    requires |a| % 2 == 0 && forall i :: 0 <= i < |a| ==> HexDigit(a[i])
    requires |b| % 2 == 0 && forall i :: 0 <= i < |b| ==> HexDigit(b[i])
    ensures Bytes(a) == Bytes(b) ==> a == b
  {
    if a != [] && b != [] && Bytes(a) == Bytes(b) {
      assert Bytes(a)[0] == Bytes(b)[0] && Bytes(a)[1..] == Bytes(a[2..]) && Bytes(b)[1..] == Bytes(b[2..]);
      BytesInjective(a[2..], b[2..]);
      assert a == a[..2] + a[2..] && b == b[..2] + b[2..];
    }
  }

  /** The presented proof is a string and the expected one, digit for digit. */
  function ProofMatches(expectedHex: Text, presented: Option<Json>): (r: bool)
    requires IsProof(expectedHex)
    ensures r <==> presented == Some(Str(expectedHex))
  {
    if presented.None? || !presented.value.Str? || !IsProof(presented.value.s) then false
    else
      BytesInjective(expectedHex, presented.value.s);
      Bytes(expectedHex) == Bytes(presented.value.s)
  }

  // ---------- answers ----------

  function Field(f: Fields, key: string): Option<Json> {
    if key in f then Some(f[key]) else None
  }

  function DecisionOf(f: Fields): Option<Decision> {
    if Is(f, "decision", "approve") then Some(Approve)
    else if Is(f, "decision", "deny") then Some(Deny)
    else if Is(f, "decision", "done") then Some(Done)
    else if Is(f, "decision", "abort") then Some(Abort)
    else None
  }

  /** The value an answer must carry, or must not. */
  predicate ValueFits(decision: Decision, rules: AnswerRules, value: Option<Json>) {
    if decision != Done || rules.humanKind.None? then value.None?
    else match rules.humanKind.value
      case Acknowledge => value.None?
      case Confirm => value.Some? && value.value.Bool?
      case Choose => value.Some? && IsInteger(value.value) && 0.0 <= value.value.n < rules.choiceCount as real
      case Input => value.Some? && value.value.Str? && |value.value.s| <= MAX_INPUT_CHARS
  }

  datatype ValueCheck = GoodValue(value: Option<Json>) | BadValue

  function CheckValue(decision: Decision, rules: AnswerRules, value: Option<Json>): (r: ValueCheck)
    ensures r == if ValueFits(decision, rules, value) then GoodValue(value) else BadValue
  {
    if decision != Done || rules.humanKind.None? || rules.humanKind == Some(Acknowledge) then
      if value.None? then GoodValue(None) else BadValue
    else if rules.humanKind == Some(Confirm) then
      if value.Some? && value.value.Bool? then GoodValue(value) else BadValue
    else if rules.humanKind == Some(Choose) then
      if value.Some? && IsInteger(value.value) && value.value.n >= 0.0 && value.value.n < rules.choiceCount as real
      then GoodValue(value) else BadValue
    else
      if value.Some? && value.value.Str? && |value.value.s| <= MAX_INPUT_CHARS then GoodValue(value) else BadValue
  }

  /** `raw` spells the grant `g`: session or workspace wide, 1 second to a day. */
  predicate Spells(raw: Json, g: Grant) {
    && raw.Obj?
    && Field(raw.fields, "scope") == Some(Str(Lit(if g.scope.SessionScope? then "session" else "workspace")))
    && Field(raw.fields, "ttlSeconds") == Some(Num(g.ttlSeconds as real))
    && 1 <= g.ttlSeconds <= MAX_GRANT_TTL_SECONDS
  }

  datatype GrantCheck = GoodGrant(grant: Grant) | BadGrant(code: Code)

  function CheckGrant(rules: AnswerRules, raw: Json): (r: GrantCheck)
    ensures r.GoodGrant? ==> rules.grantable.Some? && Spells(raw, r.grant)
    ensures r.BadGrant? ==> (r.code == GrantNotAllowed <==> rules.grantable.None?)
    ensures r.BadGrant? && rules.grantable.Some? ==> forall g :: !Spells(raw, g)
  {
    if rules.grantable.None? then BadGrant(GrantNotAllowed)
    else if !raw.Obj? then BadGrant(InvalidAnswer)
    else
      var scope, ttl := Field(raw.fields, "scope"), Field(raw.fields, "ttlSeconds");
      if scope != Some(Str(Lit("session"))) && scope != Some(Str(Lit("workspace"))) then
        BadGrant(InvalidAnswer)
      else if ttl.None? || !IsInteger(ttl.value)
              || ttl.value.n < 1.0 || ttl.value.n > MAX_GRANT_TTL_SECONDS as real then
        BadGrant(InvalidAnswer)
      else
        GoodGrant(Grant(if scope == Some(Str(Lit("session"))) then SessionScope else WorkspaceScope,
                        ttl.value.n.Floor))
  }

  /** The answer names a decision the request allows and a value that fits it. */
  predicate Fits(rules: AnswerRules, f: Fields) {
    && DecisionOf(f).Some? && DecisionOf(f).value in rules.answers
    && ValueFits(DecisionOf(f).value, rules, Field(f, "value"))
  }

  /** An answer is accepted exactly when it fits and its grant, if it has one,
      rides on an approve of a grantable request and is well spelled. */
  function CheckAnswer(rules: AnswerRules, f: Fields): (r: AnswerCheck)
    ensures r.Accepted? ==>
              && Fits(rules, f) && DecisionOf(f) == Some(r.decision)
              && r.value == Field(f, "value")
              && (r.grant.None? <==> "grant" !in f)
              && (r.grant.Some? ==>
                    r.decision == Approve && rules.grantable.Some? && Spells(f["grant"], r.grant.value))
    ensures r.Rejected? ==>
              || (!Fits(rules, f) && r.code == InvalidAnswer)
              || (&& Fits(rules, f) && "grant" in f
                  && if DecisionOf(f) != Some(Approve) || rules.grantable.None?
                     then r.code == GrantNotAllowed
                     else r.code == InvalidAnswer && forall g :: !Spells(f["grant"], g))
  {
    var decision := DecisionOf(f);
    if decision.None? || decision.value !in rules.answers then Rejected(InvalidAnswer)
    else
      var value := CheckValue(decision.value, rules, Field(f, "value"));
      if value.BadValue? then Rejected(InvalidAnswer)
      else if "grant" !in f then Accepted(decision.value, value.value, None)
      else if decision.value != Approve then Rejected(GrantNotAllowed)
      else match CheckGrant(rules, f["grant"])
        case BadGrant(code) => Rejected(code)
        case GoodGrant(grant) => Accepted(decision.value, value.value, Some(grant))
  }
}
