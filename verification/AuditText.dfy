/** What the stored JSON of an audit record holds, key by key, as a reader of the database
    finds it. */
module AuditText {
  import opened Wrappers
  import opened JsonRecord
  import opened AuditBody

  lemma Stored(b: Body, k: nat)
    requires k < |Columns(b)|
    ensures CellAt(BodyText(b), Columns(b)[k].name) == Columns(b)[k].cell
  {
    hide Columns, CellAt;
    ColumnNamesDistinct(b);
    CellReadsBack(Columns(b), Columns(b)[k]);
  }

  lemma StoredDecision(b: Body)
    requires b.Decision?
    ensures KindOf(b) == "decision"
    ensures var text := BodyText(b);
      && CellAt(text, "decision_id") == Word(b.decisionId)
      && CellAt(text, "principal") == Word(b.principal)
      && CellAt(text, "source") == Word(b.source) && CellAt(text, "tool") == Word(b.tool)
      && CellAt(text, "qualified") == Word(b.source + ":" + b.tool)
      && CellAt(text, "allowed") == Flag(b.allowed) && CellAt(text, "reason") == Word(b.reason)
      && CellAt(text, "determining_policies") == Words(b.determining)
      && CellAt(text, "default_deny") == Flag(b.defaultDeny)
  {
    hide BodyText, CellAt;
    forall k | 0 <= k < |Columns(b)| ensures CellAt(BodyText(b), Columns(b)[k].name) == Columns(b)[k].cell {
      Stored(b, k);
    }
    var cs := Columns(b);
    assert cs[0].name == "principal" && cs[1].name == "source" && cs[2].name == "tool" && cs[3].name == "qualified";
    assert cs[4].name == "allowed" && cs[5].name == "reason" && cs[6].name == "determining_policies";
    assert cs[7].name == "default_deny" && cs[8].name == "decision_id";
  }

  lemma StoredIssue(b: Body)
    requires b.GrantIssue?
    ensures KindOf(b) == "grant_issue"
    ensures var text := BodyText(b);
      && CellAt(text, "grant_id") == Word(b.grantId) && CellAt(text, "decision_id") == Word(b.decisionId)
      && CellAt(text, "principal_id") == Word(b.principalId)
      && CellAt(text, "source_id") == Word(b.sourceId) && CellAt(text, "name") == Word(b.name)
      && CellAt(text, "args_hash") == Word(b.argsHash)
      && CellAt(text, "issued_at") == Word(b.issuedAt.text) && CellAt(text, "expires_at") == Word(b.expiresAt.text)
      && CellAt(text, "ttl_seconds") == (if b.ttl == None then Null else Number(b.ttl.value))
  {
    hide BodyText, CellAt;
    forall k | 0 <= k < |Columns(b)| ensures CellAt(BodyText(b), Columns(b)[k].name) == Columns(b)[k].cell {
      Stored(b, k);
    }
    var cs := Columns(b);
    assert cs[0].name == "grant_id" && cs[1].name == "decision_id" && cs[2].name == "principal_id";
    assert cs[3].name == "source_id" && cs[4].name == "name" && cs[5].name == "args_hash";
    assert cs[6].name == "issued_at" && cs[7].name == "expires_at" && cs[8].name == "ttl_seconds";
  }

  lemma StoredRedeem(b: Body)
    requires b.GrantRedeem?
    ensures KindOf(b) == "grant_redeem"
    ensures var text := BodyText(b);
      && CellAt(text, "grant_id") == Word(b.grantId) && CellAt(text, "decision_id") == Word(b.decisionId)
      && CellAt(text, "principal_id") == Word(b.principalId)
      && CellAt(text, "source_id") == Word(b.sourceId) && CellAt(text, "name") == Word(b.name)
  {
    hide BodyText, CellAt;
    forall k | 0 <= k < |Columns(b)| ensures CellAt(BodyText(b), Columns(b)[k].name) == Columns(b)[k].cell {
      Stored(b, k);
    }
    var cs := Columns(b);
    assert cs[0].name == "grant_id" && cs[1].name == "decision_id" && cs[2].name == "principal_id";
    assert cs[3].name == "source_id" && cs[4].name == "name";
  }

  lemma StoredClose(b: Body)
    requires b.GrantClose?
    ensures KindOf(b) == "grant_close"
    ensures var text := BodyText(b);
      && CellAt(text, "grant_id") == Word(b.grantId) && CellAt(text, "decision_id") == Word(b.decisionId)
      && CellAt(text, "reason") == Word(b.closeReason) && CellAt(text, "already_closed") == Flag(b.alreadyClosed)
  {
    hide BodyText, CellAt;
    forall k | 0 <= k < |Columns(b)| ensures CellAt(BodyText(b), Columns(b)[k].name) == Columns(b)[k].cell {
      Stored(b, k);
    }
    var cs := Columns(b);
    assert cs[0].name == "grant_id" && cs[1].name == "decision_id" && cs[2].name == "reason";
    assert cs[3].name == "already_closed";
  }

  lemma StoredDenial(b: Body)
    requires b.GrantRedeemDenied?
    ensures KindOf(b) == "grant_redeem_denied"
    ensures var text := BodyText(b);
      && CellAt(text, "grant_id") == Word(b.grantId)
      && CellAt(text, "decision_id") == (if b.deniedDecision == None then Null else Word(b.deniedDecision.value))
      && CellAt(text, "principal_id") == Word(b.principalId) && CellAt(text, "reason") == Word(b.denyReason)
  {
    hide BodyText, CellAt;
    forall k | 0 <= k < |Columns(b)| ensures CellAt(BodyText(b), Columns(b)[k].name) == Columns(b)[k].cell {
      Stored(b, k);
    }
    var cs := Columns(b);
    assert cs[0].name == "grant_id" && cs[1].name == "decision_id" && cs[2].name == "principal_id";
    assert cs[3].name == "reason";
  }

  lemma StoredOutcome(b: Body)
    requires b.Outcome?
    ensures KindOf(b) == "outcome"
    ensures var text := BodyText(b);
      && CellAt(text, "decision_id") == Word(b.decisionId) && CellAt(text, "decision_seq") == Number(b.decisionSeq)
      && CellAt(text, "outcome") == Word(b.outcome) && CellAt(text, "detail") == Word(b.detail)
  {
    hide BodyText, CellAt;
    forall k | 0 <= k < |Columns(b)| ensures CellAt(BodyText(b), Columns(b)[k].name) == Columns(b)[k].cell {
      Stored(b, k);
    }
    var cs := Columns(b);
    assert cs[0].name == "decision_id" && cs[1].name == "decision_seq" && cs[2].name == "outcome";
    assert cs[3].name == "detail";
  }

  lemma StoredEnforcement(b: Body)
    requires b.ProviderEnforcement?
    ensures KindOf(b) == "provider_enforcement"
    ensures var text := BodyText(b);
      && CellAt(text, "grant_id") == Opt(b.govGrantId) && CellAt(text, "decision_record_id") == Opt(b.recordId)
      && CellAt(text, "correlation_id") == Opt(b.correlationId) && CellAt(text, "issuer_key_id") == Opt(b.issuerKeyId)
      && CellAt(text, "provider_id") == Word(b.providerId) && CellAt(text, "principal_id") == Word(b.principalId)
      && CellAt(text, "source_id") == Word(b.sourceId) && CellAt(text, "name") == Word(b.name)
      && CellAt(text, "args_hash") == Word(b.argsHash) && CellAt(text, "verified") == Flag(b.verified)
      && CellAt(text, "failure_codes") == Words(b.failureCodes) && CellAt(text, "outcome") == Word(b.outcome)
      && CellAt(text, "verification_at") == Word(b.verificationAt)
      && CellAt(text, "redeemed_at") == (if b.redeemedAt == None then Null else Word(b.redeemedAt.value.text))
  {
    hide BodyText, CellAt, Columns, Opt;
    forall k | 0 <= k < |Columns(b)| ensures CellAt(BodyText(b), Columns(b)[k].name) == Columns(b)[k].cell {
      Stored(b, k);
    }
    EnforcementColumns(b);
  }

  lemma EnforcementColumns(b: Body)
    requires b.ProviderEnforcement?
    ensures |Columns(b)| == 14
    ensures var cs := Columns(b);
      && cs[0] == Column("grant_id", Opt(b.govGrantId)) && cs[1] == Column("decision_record_id", Opt(b.recordId))
      && cs[2] == Column("correlation_id", Opt(b.correlationId))
      && cs[3] == Column("issuer_key_id", Opt(b.issuerKeyId))
      && cs[4] == Column("provider_id", Word(b.providerId)) && cs[5] == Column("principal_id", Word(b.principalId))
      && cs[6] == Column("source_id", Word(b.sourceId)) && cs[7] == Column("name", Word(b.name))
      && cs[8] == Column("args_hash", Word(b.argsHash)) && cs[9] == Column("verified", Flag(b.verified))
      && cs[10] == Column("failure_codes", Words(b.failureCodes)) && cs[11] == Column("outcome", Word(b.outcome))
      && cs[12] == Column("verification_at", Word(b.verificationAt))
      && cs[13] == Column("redeemed_at", if b.redeemedAt == None then Null else Word(b.redeemedAt.value.text))
  {
  }

  /** The notes of catalog calls, by kind. */
  lemma NoteKinds(sid: string, names: seq<string>)
    ensures KindOf(Note(SourceNote, sid, names)) == "source"
    ensures KindOf(Note(IngestNote, sid, names)) == "ingest"
    ensures KindOf(Note(AssertionNote, sid, names)) == "assertion"
    ensures KindOf(Note(DriftNote, sid, names)) == "drift"
  {
  }
}
