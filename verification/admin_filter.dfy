/** Recipient selection for the admin chat broadcast: the admin-role token
    records are walked in store order, records without a usable token are
    skipped, the sender's own records are skipped, and every other record's
    token is kept, duplicates included. */
module AdminFilter {
  import opened Wrappers
  import opened JsValue

  /** One `fcm_tokens` document with role "admin": its `token` and `email` fields. */
  datatype TokenRecord = TokenRecord(token: Option<string>, email: Option<string>)

  /** The record has a truthy (present, non-empty) token. */
  predicate HasToken(rec: TokenRecord)
  {
    rec.token.Some? && rec.token.value != ""
  }

  /** The record's email is truthy and strictly equal to the sender's email. */
  predicate FromSender(rec: TokenRecord, senderEmail: Value)
  {
    rec.email.Some? && rec.email.value != "" && Str(rec.email.value) == senderEmail
  }

  /** The record's token goes on the recipient list. */
  predicate Keep(rec: TokenRecord, senderEmail: Value)
  {
    HasToken(rec) && !FromSender(rec, senderEmail)
  }

  /** The recipient list, in record order. */
  function AdminTokens(records: seq<TokenRecord>, senderEmail: Value): (r: seq<string>)
    ensures |r| <= |records|
    ensures forall k :: 0 <= k < |r| ==> r[k] != ""
    ensures |r| == 0 <==> forall i :: 0 <= i < |records| ==> !Keep(records[i], senderEmail)
  {
    if |records| == 0 then []
    else
      var rest := AdminTokens(records[1..], senderEmail);
      assert forall i :: 1 <= i < |records| ==> records[i] == records[1..][i - 1];
      if Keep(records[0], senderEmail) then [records[0].token.value] + rest else rest
  }

  /** Every index shifted up by one. */
  function Shift(idx: seq<nat>): seq<nat>
  {
    seq(|idx|, k requires 0 <= k < |idx| => idx[k] + 1)
  }

  /** Positions of the kept records, in increasing order. */
  function KeptIndices(records: seq<TokenRecord>, senderEmail: Value): seq<nat>
  {
    if |records| == 0 then []
    else
      var rest := Shift(KeptIndices(records[1..], senderEmail));
      if Keep(records[0], senderEmail) then [0] + rest else rest
  }

  /** The recipient list is read off the kept records at the positions `KeptIndices`
      lists: one entry per kept position, each entry the token of that record. */
  lemma {:induction false} KeptIndicesSound(records: seq<TokenRecord>, senderEmail: Value)
    ensures var idx := KeptIndices(records, senderEmail);
      var r := AdminTokens(records, senderEmail);
      && |idx| == |r|
      && forall k :: 0 <= k < |idx| ==>
           idx[k] < |records| && Keep(records[idx[k]], senderEmail) && r[k] == records[idx[k]].token.value
    decreases |records|
  {
    if |records| > 0 {
      var tail := records[1..];
      KeptIndicesSound(tail, senderEmail);
      var ti := KeptIndices(tail, senderEmail);
      var tr := AdminTokens(tail, senderEmail);
      var s := Shift(ti);
      assert forall k :: 0 <= k < |ti| ==> records[s[k]] == tail[ti[k]];
      var idx := KeptIndices(records, senderEmail);
      var r := AdminTokens(records, senderEmail);
      if Keep(records[0], senderEmail) {
        assert idx == [0] + s && r == [records[0].token.value] + tr;
        assert forall k :: 1 <= k < |idx| ==> idx[k] == s[k - 1] && r[k] == tr[k - 1];
      } else {
        assert idx == s && r == tr;
      }
    }
  }

  /** Strictly increasing positions. */
  ghost predicate Increasing(idx: seq<nat>)
  {
    forall k, l :: 0 <= k < l < |idx| ==> idx[k] < idx[l]
  }

  /** The kept positions are strictly increasing, so the recipient list keeps record order. */
  lemma {:induction false} KeptIndicesIncreasing(records: seq<TokenRecord>, senderEmail: Value)
    ensures Increasing(KeptIndices(records, senderEmail))
    decreases |records|
  {
    if |records| > 0 {
      KeptIndicesIncreasing(records[1..], senderEmail);
      var ti := KeptIndices(records[1..], senderEmail);
      var s := Shift(ti);
      var idx := KeptIndices(records, senderEmail);
      assert forall k, l :: 0 <= k < l < |s| ==> s[k] < s[l];
      if Keep(records[0], senderEmail) {
        assert idx == [0] + s;
        forall k, l | 0 <= k < l < |idx|
          ensures idx[k] < idx[l]
        {
          assert idx[l] == s[l - 1];
          if k > 0 {
            assert idx[k] == s[k - 1];
          }
        }
      } else {
        assert idx == s;
      }
    }
  }

  /** Every kept record's position is listed, so no kept record is dropped
      (in particular, a repeated token is not). */
  lemma {:induction false} KeptIndicesComplete(records: seq<TokenRecord>, senderEmail: Value)
    ensures var idx := KeptIndices(records, senderEmail);
      forall i :: 0 <= i < |records| && Keep(records[i], senderEmail) ==> i in idx
    decreases |records|
  {
    if |records| > 0 {
      var tail := records[1..];
      KeptIndicesComplete(tail, senderEmail);
      var ti := KeptIndices(tail, senderEmail);
      var s := Shift(ti);
      forall i | 1 <= i < |records| && Keep(records[i], senderEmail)
        ensures i in s
      {
        assert tail[i - 1] == records[i];
        var k :| 0 <= k < |ti| && ti[k] == i - 1;
        assert s[k] == i;
      }
    }
  }

  /** A token is a recipient exactly when some kept record carries it. */
  lemma {:induction false} AdminTokensMembership(records: seq<TokenRecord>, senderEmail: Value, t: string)
    ensures t in AdminTokens(records, senderEmail)
        <==> exists i :: 0 <= i < |records| && Keep(records[i], senderEmail) && records[i].token == Some(t)
  {
    KeptIndicesSound(records, senderEmail);
    KeptIndicesComplete(records, senderEmail);
    var idx := KeptIndices(records, senderEmail);
    var r := AdminTokens(records, senderEmail);
    if t in r {
      var k :| 0 <= k < |r| && r[k] == t;
      assert records[idx[k]].token == Some(t);
    }
    if i :| 0 <= i < |records| && Keep(records[i], senderEmail) && records[i].token == Some(t) {
      var k :| 0 <= k < |idx| && idx[k] == i;
      assert r[k] == t;
    }
  }

  /** Filtering a concatenation of record runs filters each run and concatenates. */
  lemma {:induction false} AdminTokensAppend(a: seq<TokenRecord>, b: seq<TokenRecord>, senderEmail: Value)
    ensures AdminTokens(a + b, senderEmail) == AdminTokens(a, senderEmail) + AdminTokens(b, senderEmail)
    decreases |a|
  {
    if |a| == 0 {
      assert a + b == b;
    } else {
      assert (a + b)[0] == a[0];
      assert (a + b)[1..] == a[1..] + b;
      AdminTokensAppend(a[1..], b, senderEmail);
    }
  }
}
