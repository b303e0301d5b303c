/** The check a claim passes before the worker acts on it, and what it guarantees
    about the runs of `rotate`. */
module Claims {
  import opened Values
  import opened Rotation

  const MAX_ID: int := 0x1F_FFFF_FFFF_FFFF

  datatype Verdict = NoTask | Invalid | Accepted(entries: seq<(string, Json)>)

  predicate ValidId(v: Json) {
    v.Number? && 0 < v.n <= MAX_ID
  }

  predicate ValidText(v: Json) {
    v.Str? && v.s != "" && |v.s| <= 16384 && '\0' !in v.s
  }

  predicate ValidRotation(e: seq<(string, Json)>) {
    && ValidId(Get(e, "account_id"))
    && Get(e, "action") in {Str("rotate"), Str("verify_new"), Str("verify_old")}
    && (Get(e, "action") == Str("verify_new") ==> Get(e, "candidate_secret").Str? && Get(e, "candidate_secret").s != "")
    && (Get(e, "candidate_secret") == Null || Get(e, "candidate_secret").Str?)
  }

  /** `validate_claim`; `usableProxy` is the URL check of a non-empty proxy. */
  function Validate(claim: Json, usableProxy: Json -> bool): Verdict {
    if claim == Null then NoTask
    else if !claim.Obj? then Invalid
    else
      var e := claim.entries;
      if !ValidId(Get(e, "task_id")) || Get(e, "operation") !in {Str("login"), Str("totp_rotation")}
         || !Get(e, "claim_token").Str? || !(16 <= |Get(e, "claim_token").s| <= 512)
      then Invalid
      else if !ValidText(Get(e, "login_email")) || !ValidText(Get(e, "password")) || !ValidText(Get(e, "totp_secret")) then Invalid
      else if Get(e, "operation") == Str("totp_rotation") && !ValidRotation(e) then Invalid
      else if PyTruthy(Get(e, "proxy_url")) && !usableProxy(Get(e, "proxy_url")) then Invalid
      else Accepted(e)
  }

  function ActionOf(v: Json): ClaimAction {
    if v == Str("rotate") then RotateKey
    else if v == Str("verify_new") then VerifyNewKey
    else if v == Str("verify_old") then VerifyOldKey
    else OtherAction
  }

  /** The claim `rotate` reads out of an accepted task. */
  function ToClaim(e: seq<(string, Json)>): Claim
    requires ValidId(Get(e, "task_id")) && ValidText(Get(e, "login_email")) && ValidText(Get(e, "password"))
             && ValidText(Get(e, "totp_secret"))
  {
    Claim(Get(e, "task_id").n, Get(e, "account_id"), Get(e, "login_email").s, Get(e, "password").s,
          ActionOf(Get(e, "action")), Get(e, "totp_secret").s, Get(e, "candidate_secret"))
  }

  /** A claim `rotate` can be given. */
  predicate Usable(c: Claim) {
    && c.action != OtherAction && c.secret != ""
    && (c.candidate == Null || c.candidate.Str?)
    && (c.action == VerifyNewKey ==> c.candidate.Str? && c.candidate.s != "")
  }

  /** Text the worker takes for an email, a password or a secret. */
  ghost predicate TextField(v: Json) {
    v.Str? && 1 <= |v.s| <= 16384 && forall c :: c in v.s ==> c as int != 0
  }

  ghost predicate NumberField(v: Json) {
    v.Number? && 1 <= v.n <= 9007199254740991
  }

  /** A claim is accepted, as it is, if and only if each of its fields has the shape the
      worker needs; no claim at all is no error. */
  lemma AcceptedClaims(claim: Json, usableProxy: Json -> bool)
    ensures Validate(claim, usableProxy).NoTask? <==> claim == Null
    ensures Validate(claim, usableProxy).Accepted? <==>
            claim.Obj? &&
            var e := claim.entries;
            && NumberField(Get(e, "task_id"))
            && Get(e, "claim_token").Str? && 16 <= |Get(e, "claim_token").s| <= 512
            && TextField(Get(e, "login_email")) && TextField(Get(e, "password")) && TextField(Get(e, "totp_secret"))
            && (Get(e, "proxy_url") in {Null, Bool(false), Number(0), Str(""), Arr([]), Obj([])} || usableProxy(Get(e, "proxy_url")))
            && (Get(e, "operation") == Str("login")
                || (Get(e, "operation") == Str("totp_rotation") && NumberField(Get(e, "account_id"))
                    && (Get(e, "action") == Str("rotate") || Get(e, "action") == Str("verify_old") || Get(e, "action") == Str("verify_new"))
                    && (Get(e, "candidate_secret") == Null || Get(e, "candidate_secret").Str?)
                    && (Get(e, "action") == Str("verify_new") ==>
                          Get(e, "candidate_secret").Str? && Get(e, "candidate_secret").s != "")))
    ensures Validate(claim, usableProxy).Accepted? ==> Validate(claim, usableProxy).entries == claim.entries
  {
    if claim.Obj? {
      var e := claim.entries;
      TruthsDiffer(Get(e, "proxy_url"));
      TextIsValid(Get(e, "login_email"));
      TextIsValid(Get(e, "password"));
      TextIsValid(Get(e, "totp_secret"));
    }
  }

  lemma TextIsValid(v: Json)
    ensures ValidText(v) <==> TextField(v)
  {
    if v.Str? {
      assert forall c :: c in v.s && c as int == 0 ==> c == '\0';
    }
  }

  /** What `rotate` reads out of an accepted rotation. */
  lemma ClaimIsRead(e: seq<(string, Json)>)
    requires ValidId(Get(e, "task_id")) && ValidText(Get(e, "login_email")) && ValidText(Get(e, "password"))
             && ValidText(Get(e, "totp_secret"))
    ensures var c := ToClaim(e);
            && Number(c.task) == Get(e, "task_id") && c.account == Get(e, "account_id") && Str(c.email) == Get(e, "login_email")
            && Str(c.password) == Get(e, "password") && Str(c.secret) == Get(e, "totp_secret") && c.candidate == Get(e, "candidate_secret")
            && (c.action == RotateKey <==> Get(e, "action") == Str("rotate"))
            && (c.action == VerifyNewKey <==> Get(e, "action") == Str("verify_new"))
            && (c.action == VerifyOldKey <==> Get(e, "action") == Str("verify_old"))
  {
    assert "rotate"[0] != "verify_new"[0] && "verify_new"[7] != "verify_old"[7] && "rotate"[0] != "verify_old"[0];
  }

  lemma ValidatedClaimIsUsable(claim: Json, usableProxy: Json -> bool)
    requires Validate(claim, usableProxy).Accepted?
    requires Get(claim.entries, "operation") == Str("totp_rotation")
    ensures Usable(ToClaim(claim.entries)) && 0 < ToClaim(claim.entries).task <= MAX_ID
  {
    assert Get(claim.entries, "action") in {Str("rotate"), Str("verify_new"), Str("verify_old")};
  }

  /** For a validated claim no run ever reaches its verification without a secret to
      be accepted, so the run never ends in the branch that checks for one. */
  lemma AcceptedNeverEmpty(claim: Claim, os: seq<Outcome>)
    requires Usable(claim) && End(Init(claim), os).pc == VerifyGuard
    ensures PyTruthy(Rotation.Accepted(End(Init(claim), os)))
  {
    RunFollowsScript(claim, os);
    ClaimFixed(Init(claim), os);
    CandidateFixed(Init(claim), os);
  }

  /** For a validated claim a success report means: the new secret logged in and the
      old one was refused (`rotate`, `verify_new`), or the old one logged in and the
      candidate, if the task has one, was refused (`verify_old`). */
  lemma SuccessOfValidatedClaim(claim: Claim, os: seq<Outcome>, i: nat)
    requires Usable(claim)
    requires i < |Trace(Init(claim), os)| && Trace(Init(claim), os)[i].effect.FinishSuccess?
    ensures var tr := Trace(Init(claim), os);
            var c := End(Init(claim), os).candidate;
            var previous := Str(claim.secret);
            && (claim.action != VerifyOldKey ==>
                  Event(Login(c, true), LoggedIn) in tr && Event(Login(previous, false), Refused) in tr && PyTruthy(c))
            && (claim.action == VerifyOldKey ==>
                  Event(Login(previous, true), LoggedIn) in tr
                  && (PyTruthy(claim.candidate) ==> Event(Login(claim.candidate, false), Refused) in tr))
  {
    SuccessIsVerified(claim, os, i);
    ClaimFixed(Init(claim), os);
    if claim.action == RotateKey {
      EnrolledIsTrue(claim, os, i);
    }
  }

  /** A rotation that reports success has enrolled a candidate. */
  lemma EnrolledIsTrue(claim: Claim, os: seq<Outcome>, i: nat)
    requires claim.action == RotateKey
    requires i < |Trace(Init(claim), os)| && Trace(Init(claim), os)[i].effect.FinishSuccess?
    ensures PyTruthy(End(Init(claim), os).candidate)
  {
    SuccessIsVerified(claim, os, i);
    ClaimFixed(Init(claim), os);
    RunFollowsScript(claim, os);
    EventInOrder(claim, os, 7);
    assert PostsCandidate(claim, Trace(Init(claim), os));
  }
}
