/** Telegram notifications (notify.py): long texts are cut into chunks below
    the message limit, each chunk is posted with a bounded number of
    retries, and error reports are de-duplicated by signature with a
    cooldown kept in the notifier's state. */
module Notify {
  import opened Wrappers
  import opened Text

  /** The default chunk size, below Telegram's 4096. */
  const ChunkLimit: int := 3900

  /** Details longer than this are cut. */
  const DetailsLimit: int := 800

  // ===================================================================
  // Chunks

  function Concat(cs: seq<string>): string {
    if cs == [] then [] else cs[0] + Concat(cs[1..])
  }

  /** The pieces `_chunk` yields: `s[:limit]`, then the rest. */
  function ChunksOf(s: string, limit: int): (r: seq<string>)
    requires limit > 0
    decreases |s|
  {
    if s == [] then []
    else if |s| <= limit then [s]
    else [s[..limit]] + ChunksOf(s[limit..], limit)
  }

  /** The chunks put back together are the text; each is non-empty and at
      most `limit` long, and all but the last are exactly `limit` long. */
  lemma {:induction false} ChunksCover(s: string, limit: int)
    requires limit > 0
    ensures var cs := ChunksOf(s, limit);
            && Concat(cs) == s
            && (forall i :: 0 <= i < |cs| ==> 0 < |cs[i]| <= limit)
            && (forall i :: 0 <= i < |cs| - 1 ==> |cs[i]| == limit)
            && (cs == [] <==> s == [])
    decreases |s|
  {
    if s != [] && |s| > limit {
      var rest := ChunksOf(s[limit..], limit);
      ChunksCover(s[limit..], limit);
      var cs := ChunksOf(s, limit);
      assert cs == [s[..limit]] + rest;
      assert cs[1..] == rest;
      assert Concat(cs) == s[..limit] + Concat(rest);
      assert s[..limit] + s[limit..] == s;
      forall i | 0 <= i < |cs| ensures 0 < |cs[i]| <= limit && (i < |cs| - 1 ==> |cs[i]| == limit) {
        if i > 0 {
          assert cs[i] == rest[i - 1];
        }
      }
    }
  }

  /** `_chunk`; a non-positive limit makes the generator loop for ever. */
  method Chunk(text: string, limit: int) returns (chunks: seq<string>)
    requires limit > 0
    ensures chunks == ChunksOf(text, limit)
  {
    var s := text;
    chunks := [];
    while s != []
      invariant chunks + ChunksOf(s, limit) == ChunksOf(text, limit)
      decreases |s|
    {
      if |s| <= limit {
        chunks := chunks + [s];
        s := [];
      } else {
        assert ChunksOf(s, limit) == [s[..limit]] + ChunksOf(s[limit..], limit);
        chunks := chunks + [s[..limit]];
        s := s[limit..];
      }
    }
  }

  // ===================================================================
  // Posting

  /** Whether one `_post` succeeds: the bot is configured and one of the
      first 1 + retries answers is ok. */
  predicate Delivered(configured: bool, retries: int, answers: seq<bool>) {
    configured && exists k :: 0 <= k < 1 + retries && k < |answers| && answers[k]
  }

  /** `len(range(1 + retries))` */
  function AttemptBound(retries: int): nat {
    if 1 + retries > 0 then 1 + retries else 0
  }

  /** `_post`: no attempt without a token and chat id; otherwise up to
      1 + retries attempts, stopping at the first ok answer. `answers[k]`
      is whether attempt k came back ok. */
  method Post(configured: bool, retries: int, answers: seq<bool>) returns (ok: bool, attempts: nat)
    requires |answers| >= 1 + retries
    ensures ok <==> Delivered(configured, retries, answers)
    ensures !configured ==> attempts == 0
    ensures configured && !ok ==> attempts as int == AttemptBound(retries)
    ensures ok ==> 0 < attempts <= 1 + retries && answers[attempts - 1] &&
                   forall k :: 0 <= k < attempts - 1 ==> !answers[k]
  {
    if !configured {
      return false, 0;
    }
    ok, attempts := false, 0;
    var attempt := 0;
    while attempt < 1 + retries
      invariant 0 <= attempt && attempts == attempt
      invariant attempt <= AttemptBound(retries)
      invariant forall k :: 0 <= k < attempt ==> !answers[k]
      decreases 1 + retries - attempt
    {
      attempts := attempts + 1;
      if answers[attempt] {
        return true, attempts;
      }
      attempt := attempt + 1;
    }
  }

  /** `_send_text`: every chunk is posted, also after a failed one, and the
      text counts as sent when every chunk was delivered. */
  method SendText(text: string, configured: bool, retries: int, answers: seq<seq<bool>>) returns (ok: bool)
    requires |answers| >= |ChunksOf(text, ChunkLimit)|
    requires forall i :: 0 <= i < |answers| ==> |answers[i]| >= 1 + retries
    ensures ok <==> forall i :: 0 <= i < |ChunksOf(text, ChunkLimit)| ==> Delivered(configured, retries, answers[i])
  {
    var parts := Chunk(text, ChunkLimit);
    ok := true;
    for i := 0 to |parts|
      invariant ok <==> forall j :: 0 <= j < i ==> Delivered(configured, retries, answers[j])
    {
      var delivered, _ := Post(configured, retries, answers[i]);
      if !delivered {
        ok := false;
      }
    }
  }

  // ===================================================================
  // Error reports

  /** `_cooldown_passed`: a signature never sent passes; otherwise the
      cooldown (in minutes) must have elapsed since it was last sent. */
  predicate CooldownPassed(errors: map<string, int>, sig: string, now: int, cooldownMin: int) {
    sig !in errors || now - errors[sig] >= cooldownMin * 60
  }

  /** After marking, a signature is silenced for the cooldown and passes
      again once it has elapsed; other signatures are unaffected. */
  lemma MarkSilences(errors: map<string, int>, sig: string, sentAt: int, now: int, cooldownMin: int, other: string)
    requires other != sig
    ensures CooldownPassed(errors[sig := sentAt], sig, now, cooldownMin) <==> now >= sentAt + cooldownMin * 60
    ensures CooldownPassed(errors[sig := sentAt], other, now, cooldownMin) == CooldownPassed(errors, other, now, cooldownMin)
  {
  }

  /** The details trail: stripped, and cut to its first 800 characters
      followed by " …" when longer. */
  function TrimDetails(details: string): (r: string)
    ensures var d := Strip(details);
            && (|d| <= DetailsLimit ==> r == d)
            && (|d| > DetailsLimit ==> r == d[..DetailsLimit] + " …")
            && (|d| > DetailsLimit ==> |r| == DetailsLimit + 2 && r[..DetailsLimit] == d[..DetailsLimit])
  {
    var d := Strip(details);
    if |d| > DetailsLimit then d[..DetailsLimit] + " …" else d
  }

  /** The text of an error report: where, the exception type and text, and
      the trimmed details when there are any. */
  function ErrorMessage(context: string, typeName: string, excText: string, details: Option<string>): string {
    "❌ <b>ERROR</b>\n<b>Where:</b> " + context + "\n<b>Type:</b> " + typeName + "\n<b>Text:</b> " + excText +
    (if details.Some? && details.value != "" then "\n<pre>" + TrimDetails(details.value) + "</pre>" else "")
  }

  /** The persisted notifier state: the last time each error signature was
      sent. */
  class NotifyState {
    var errors: map<string, int>

    constructor ()
      ensures errors == map[]
    {
      errors := map[];
    }

    /** `_mark_sent` */
    method MarkSent(sig: string, now: int)
      modifies this
      ensures errors == old(errors)[sig := now]
    {
      errors := errors[sig := now];
    }

    /** `send_error`: within the cooldown nothing is sent and the report
        counts as handled; otherwise the report is sent and the signature is
        marked only when every chunk was delivered. `sig` stands for the
        signature of the report. */
    method SendError(sig: string, context: string, typeName: string, excText: string, details: Option<string>,
                     now: int, cooldownMin: int, configured: bool, retries: int, answers: seq<seq<bool>>)
      returns (ok: bool, sent: Option<string>)
      requires |answers| >= |ChunksOf(ErrorMessage(context, typeName, excText, details), ChunkLimit)|
      requires forall i :: 0 <= i < |answers| ==> |answers[i]| >= 1 + retries
      modifies this
      ensures !CooldownPassed(old(errors), sig, now, cooldownMin) ==> ok && sent.None? && errors == old(errors)
      ensures CooldownPassed(old(errors), sig, now, cooldownMin) ==>
                var msg := ErrorMessage(context, typeName, excText, details);
                && sent == Some(msg)
                && (ok <==> forall i :: 0 <= i < |ChunksOf(msg, ChunkLimit)| ==> Delivered(configured, retries, answers[i]))
                && errors == if ok then old(errors)[sig := now] else old(errors)
    {
      if CooldownPassed(errors, sig, now, cooldownMin) {
        var msg := ErrorMessage(context, typeName, excText, details);
        ok := SendText(msg, configured, retries, answers);
        if ok {
          MarkSent(sig, now);
        }
        sent := Some(msg);
      } else {
        ok, sent := true, None;
      }
    }
  }
}
