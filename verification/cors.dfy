/**
 * The cross-origin policy of src/middleware/cors.js: an allow-list read from
 * the comma-separated `CORS_ORIGINS` setting, and the per-request decision.
 */
module Cors {
  import opened Wrappers
  import opened Text

  /** The allow-list: `CORS_ORIGINS` (unset reads as empty) split on commas, entries trimmed, empty ones dropped. */
  function AllowList(env: Option<string>): (list: seq<string>)
    ensures forall o :: o in list ==> o != "" && ',' !in o && Trim(o) == o
  {
    var setting := if env.Some? then env.value else "";
    CleanSplit(setting, ',')
  }

  /** What the origin callback answers: allowed, or an error carrying the refused origin. */
  datatype Decision = Allow | Reject(message: string)

  /**
   * With an empty list every origin is let through (the permissive policy);
   * otherwise a request without an origin, or with an empty one, passes, and
   * any other origin passes only when it is listed verbatim.
   */
  function Decide(list: seq<string>, origin: Option<string>): (d: Decision)
    ensures d == Allow <==> |list| == 0 || origin.None? || origin.value == "" || origin.value in list
    ensures d.Reject? ==> origin.Some? && d.message == "Not allowed by CORS: " + origin.value
  {
    if |list| == 0 then Allow
    else if origin.None? || origin.value == "" then Allow
    else if origin.value in list then Allow
    else Reject("Not allowed by CORS: " + origin.value)
  }

  /** Without `CORS_ORIGINS` (or with only commas and blanks in it) every origin is let through. */
  lemma UnsetIsPermissive(env: Option<string>, origin: Option<string>)
    requires env.None? || env == Some("")
    ensures Decide(AllowList(env), origin) == Allow
  {
    assert Split("", ',') == [""];
    assert TrimAll([""]) == [Trim("")];
  }

  /**
   * Writing a list of clean origins into `CORS_ORIGINS` joined by commas gives
   * back that list: exactly its origins pass, and any other non-empty origin is
   * refused with its name in the error.
   */
  lemma ConfiguredList(origins: seq<string>, origin: string)
    requires |origins| >= 1
    requires forall o :: o in origins ==> o != "" && ',' !in o && Trim(o) == o
    requires origin != ""
    ensures AllowList(Some(Join(origins, ","))) == origins
    ensures Decide(AllowList(Some(Join(origins, ","))), Some(origin)) ==
      if origin in origins then Allow else Reject("Not allowed by CORS: " + origin)
  {
    CleanSplitJoin(origins, ',');
  }
}
