/**
 * The API-key middleware: the key a request presents, the configured list of
 * keys, and the decision to let the request through, answer 401 (no key) or
 * answer 403 (a key not on the list). With no keys configured outside
 * production every request goes through.
 */
module Auth {
  import opened Wrappers
  import opened JsString
  import opened Http

  /**
   * `req.headers['x-api-key'] || req.query.apiKey`: the header when it is set
   * and non-empty, else the query value (which may itself be absent or empty).
   */
  function PresentedKey(header: Option<string>, queryKey: Option<string>): (r: Option<string>)
    ensures header.Some? && header.value != "" ==> r == header
    ensures (header.None? || header.value == "") ==> r == queryKey
    ensures (r.Some? && r.value != "") <==> PresentsKey(header, queryKey)
  {
    if header.Some? && header.value != "" then header else queryKey
  }

  /**
   * `API_KEYS ? API_KEYS.split(',') : []`: no list for an unset or empty
   * variable, otherwise its comma-separated pieces, untrimmed, which join back
   * to the variable.
   */
  function AllowedKeys(apiKeys: Option<string>): (r: seq<string>)
    ensures r == [] <==> apiKeys.None? || apiKeys.value == ""
    ensures r != [] ==> Join(r, ',') == apiKeys.value
    ensures forall k :: 0 <= k < |r| ==> NoChar(r[k], ',')
  {
    if apiKeys.Some? && apiKeys.value != "" then
      JoinSplit(apiKeys.value, ',');
      Split(apiKeys.value, ',')
    else []
  }

  /** No keys configured and `NODE_ENV` (as set, not defaulted) other than `production`. */
  predicate OpenMode(apiKeys: Option<string>, nodeEnv: Option<string>) {
    AllowedKeys(apiKeys) == [] && nodeEnv != Some("production")
  }

  const MissingKey: Reply :=
    Failure(401, "Unauthorized", Some("API key is required. Include it in the X-API-Key header or apiKey query parameter."))

  const WrongKey: Reply := Failure(403, "Forbidden", Some("Invalid API key"))

  /** `validateApiKey`. */
  function ValidateApiKey(header: Option<string>, queryKey: Option<string>, apiKeys: Option<string>, nodeEnv: Option<string>): Gate {
    var apiKey := PresentedKey(header, queryKey);
    var validApiKeys := AllowedKeys(apiKeys);
    if validApiKeys == [] && nodeEnv != Some("production") then Next
    else if apiKey.None? || apiKey.value == "" then Stop(MissingKey)
    else if Trim(apiKey.value) !in validApiKeys then Stop(WrongKey)
    else Next
  }

  /** A request presents a key when the chosen value is set and non-empty. */
  predicate PresentsKey(header: Option<string>, queryKey: Option<string>) {
    (header.Some? && header.value != "") || (queryKey.Some? && queryKey.value != "")
  }

  /**
   * The whole decision: through exactly in open mode or when the trimmed key
   * is an entry of the list; otherwise 401 exactly when no key is presented,
   * and 403 exactly when one is presented but its trim is not on the list.
   */
  lemma Decision(header: Option<string>, queryKey: Option<string>, apiKeys: Option<string>, nodeEnv: Option<string>)
    ensures var g, key := ValidateApiKey(header, queryKey, apiKeys, nodeEnv), PresentedKey(header, queryKey);
      (g == Next <==> OpenMode(apiKeys, nodeEnv) || (PresentsKey(header, queryKey) && Trim(key.value) in AllowedKeys(apiKeys)))
      && (g == Stop(MissingKey) <==> !OpenMode(apiKeys, nodeEnv) && !PresentsKey(header, queryKey))
      && (g == Stop(WrongKey) <==>
            !OpenMode(apiKeys, nodeEnv) && PresentsKey(header, queryKey) && Trim(key.value) !in AllowedKeys(apiKeys))
  {
  }

  /** In production with no keys configured, every request is refused with 401 or 403. */
  lemma ProductionWithoutKeysRejects(header: Option<string>, queryKey: Option<string>, apiKeys: Option<string>)
    requires apiKeys.None? || apiKeys.value == ""
    ensures var g := ValidateApiKey(header, queryKey, apiKeys, Some("production"));
      g.Stop? && g.reply.Status() in {401, 403}
  {
  }

  /** Which keys a configured list admits: those whose trim is an entry. */
  lemma AdmittedKeys(key: string, apiKeys: string, nodeEnv: Option<string>)
    requires apiKeys != "" && key != ""
    ensures ValidateApiKey(Some(key), None, Some(apiKeys), nodeEnv) == Next <==> Trim(key) in Split(apiKeys, ',')
  {
    assert PresentedKey(Some(key), None) == Some(key);
    assert AllowedKeys(Some(apiKeys)) == Split(apiKeys, ',') != [];
  }

  /**
   * List entries are not trimmed, so an entry with leading or trailing
   * whitespace is never matched by any presented key.
   */
  lemma PaddedEntryNeverMatches(entry: string, key: string)
    requires entry != "" && (IsTrimmable(entry[0]) || IsTrimmable(entry[|entry| - 1]))
    ensures Trim(key) != entry
  {
    TrimIdempotent(key);
    TrimFixedPoint(Trim(key));
  }

  /**
   * A trailing comma in the list adds an empty entry, which a key made only
   * of whitespace matches once trimmed: such a key is truthy, so it is not
   * answered with 401, and its trim is the empty entry.
   */
  lemma BlankKeyMatchesEmptyEntry(apiKeys: string, key: string, nodeEnv: Option<string>)
    requires "" in AllowedKeys(Some(apiKeys))
    requires key != "" && forall k :: 0 <= k < |key| ==> IsTrimmable(key[k])
    ensures ValidateApiKey(Some(key), None, Some(apiKeys), nodeEnv) == Next
  {
    TrimBlank(key);
  }

  /** `"k,"` is such a list. */
  lemma TrailingCommaAddsEmptyEntry(k: string)
    requires NoChar(k, ',')
    ensures AllowedKeys(Some(k + ",")) == [k, ""]
  {
    SplitJoin([k, ""], ',');
    assert Join([k, ""], ',') == k + ",";
  }
}
