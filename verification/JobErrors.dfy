/**
 Job statuses and the sanitiser every error text passes before a job exposes it
 (core/api/pcap_jobs.py, `_public_error_text`).
 */
module JobErrors {
  import opened Wrappers

  /** The engine chooses the final status, so any other word is possible too. */
  datatype Status =
    | Queued | Running | Cancelling
    | Complete | Partial | Cancelled | Failed
    | Unknown(text: string)

  predicate Terminal(s: Status) {
    s.Complete? || s.Partial? || s.Cancelled? || s.Failed?
  }

  const CLEANUP_PENDING := "Evidence cleanup is pending and will be retried on restart"
  const KEY_UNAVAILABLE := "Retained evidence key is unavailable"
  const INTEGRITY_FAILED := "Retained evidence failed integrity verification"
  const EVIDENCE_UNAVAILABLE := "Retained evidence is unavailable"
  const STORAGE_FAILED := "Evidence storage operation failed"
  const INTERRUPTED := "Analysis was interrupted by a WatchTower API restart"
  const GENERATED_PREFIX := "PCAP analysis failed ("
  const CANCELLED_TEXT := "PCAP analysis was cancelled"
  const PARTIAL_TEXT := "PCAP analysis completed partially"
  const FAILED_TEXT := "PCAP analysis failed"

  predicate IsLetter(c: char) { 'a' <= c <= 'z' || 'A' <= c <= 'Z' || c == '_' }

  predicate IsDigit(c: char) { '0' <= c <= '9' }

  /** `str.isidentifier` restricted to ASCII. */
  predicate IsIdentifier(text: string) {
    |text| > 0 && IsLetter(text[0]) && forall i :: 0 <= i < |text| ==> IsLetter(text[i]) || IsDigit(text[i])
  }

  predicate IsSafeText(text: string) {
    || text == CLEANUP_PENDING || text == KEY_UNAVAILABLE || text == INTEGRITY_FAILED
    || text == EVIDENCE_UNAVAILABLE || text == STORAGE_FAILED || text == INTERRUPTED
  }

  /** "PCAP analysis failed (SomeException)", the one text that carries a variable part. */
  predicate IsGeneratedText(text: string) {
    && |GENERATED_PREFIX| < |text|
    && GENERATED_PREFIX <= text
    && text[|text| - 1] == ')'
    && IsIdentifier(text[|GENERATED_PREFIX|..|text| - 1])
  }

  predicate IsPublicText(text: string) {
    || IsSafeText(text) || IsGeneratedText(text)
    || text == CANCELLED_TEXT || text == PARTIAL_TEXT || text == FAILED_TEXT
  }

  function PublicErrorText(error: Option<string>, status: Status): Option<string> {
    if error.None? || error.value == "" then None
    else if IsSafeText(error.value) || IsGeneratedText(error.value) then error
    else if status.Cancelled? then Some(CANCELLED_TEXT)
    else if status.Partial? then Some(PARTIAL_TEXT)
    else Some(FAILED_TEXT)
  }

  /** Whatever the engine raised, only a fixed vocabulary (plus one ASCII type name) is ever exposed,
      and exposing it again under the same status changes nothing, so a restart keeps the text. */
  lemma PublicErrorsAreClosed(error: Option<string>, status: Status)
    ensures PublicErrorText(error, status).Some? ==> IsPublicText(PublicErrorText(error, status).value)
    ensures PublicErrorText(PublicErrorText(error, status), status) == PublicErrorText(error, status)
    ensures PublicErrorText(error, status).None? <==> error == None || error == Some("")
  {
    assert CANCELLED_TEXT[0] == 'P' && PARTIAL_TEXT[0] == 'P' && FAILED_TEXT[0] == 'P';
  }

  /** The texts that say nothing of the machine they come from: six fixed ones, and one with an ASCII
      identifier in brackets. */
  ghost predicate Harmless(text: string) {
    || text in {"Evidence cleanup is pending and will be retried on restart", "Retained evidence key is unavailable",
                "Retained evidence failed integrity verification", "Retained evidence is unavailable",
                "Evidence storage operation failed", "Analysis was interrupted by a WatchTower API restart"}
    || exists name :: text == "PCAP analysis failed (" + name + ")" && IsIdentifier(name)
  }

  lemma HarmlessIff(text: string)
    ensures Harmless(text) <==> IsSafeText(text) || IsGeneratedText(text)
  {
    if IsGeneratedText(text) {
      assert text == GENERATED_PREFIX + text[|GENERATED_PREFIX|..|text| - 1] + ")";
    }
    if name :| text == "PCAP analysis failed (" + name + ")" && IsIdentifier(name) {
      assert text[|GENERATED_PREFIX|..|text| - 1] == name;
    }
  }

  /** What is shown for an error: a harmless text as it is; for any other one a text that depends on the
      status alone; nothing for none. */
  lemma ShownTextIs(error: Option<string>, status: Status)
    ensures PublicErrorText(error, status) ==
              if error == None || error == Some("") then None
              else if Harmless(error.value) then error
              else Some(if status == Cancelled then "PCAP analysis was cancelled"
                        else if status == Partial then "PCAP analysis completed partially" else "PCAP analysis failed")
  {
    if error.Some? { HarmlessIff(error.value); }
  }

  /** The cleanup flag survives sanitising, whatever the status. */
  lemma CleanupTextIsKept(status: Status)
    ensures PublicErrorText(Some(CLEANUP_PENDING), status) == Some(CLEANUP_PENDING)
  {
  }
}
