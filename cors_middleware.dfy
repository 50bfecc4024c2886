/**
  The `origin` decision of the CORS options: the allow-list is
  ALLOWED_ORIGINS split on commas with every entry trimmed; a request
  without an origin is refused; otherwise the origin is allowed when it is
  on the list. When ALLOWED_ORIGINS is unset the list is `undefined`, and
  `undefined !== -1` holds, so every origin is allowed.
 */
module CorsMiddleware {
  import opened Common
  import opened Strings

  const MissingOriginMessage := "Not allowed by CORS - missing origin"
  const DeniedMessage := "Not allowed by CORS"

  /** How the callback is invoked: `callback(null, true)` or
      `callback(new Error(message))`. */
  datatype Verdict = Allow | Deny(message: string)

  /** `list.map((url) => url.trim())`. */
  function TrimAll(parts: seq<string>): (r: seq<string>)
    ensures |r| == |parts|
    ensures forall i :: 0 <= i < |parts| ==> r[i] == Trim(parts[i])
  {
    seq(|parts|, i requires 0 <= i < |parts| => Trim(parts[i]))
  }

  /** The allow-list, absent when ALLOWED_ORIGINS is unset. */
  function AllowedOrigins(env: Option<string>): (list: Option<seq<string>>)
    ensures env.None? <==> list.None?
    ensures list.Some? ==> |list.value| >= 1
  {
    match env
    case None => None
    case Some(text) => Some(TrimAll(Split(text, ',')))
  }

  /** The decision for one request's `Origin` header. */
  function CheckOrigin(origin: Option<string>, env: Option<string>): (v: Verdict)
    ensures !Truthy(origin) ==> v == Deny(MissingOriginMessage)
    ensures Truthy(origin) && env.None? ==> v == Allow
    ensures Truthy(origin) && env.Some? ==>
      (v == Allow <==> origin.value in AllowedOrigins(env).value)
    ensures v.Deny? ==> v.message in {MissingOriginMessage, DeniedMessage}
  {
    if !Truthy(origin) then Deny(MissingOriginMessage)
    else
      var list := AllowedOrigins(env);
      if list.None? || origin.value in list.value then Allow else Deny(DeniedMessage)
  }

  /** With ALLOWED_ORIGINS set, an origin is allowed exactly when some entry
      of the variable, trimmed, equals it. */
  lemma AllowedIffSomeEntry(origin: string, text: string)
    requires origin != ""
    ensures CheckOrigin(Some(origin), Some(text)) == Allow <==>
      exists i :: 0 <= i < |Split(text, ',')| && Trim(Split(text, ',')[i]) == origin
  {
    var list := TrimAll(Split(text, ','));
    if origin in list {
      var i :| 0 <= i < |list| && list[i] == origin;
      assert Trim(Split(text, ',')[i]) == origin;
    }
  }

  /** An origin that holds a comma is never on a configured list. */
  lemma {:induction false} CommaOriginDenied(origin: string, text: string)
    requires ',' in origin
    ensures CheckOrigin(Some(origin), Some(text)) == Deny(DeniedMessage)
  {
    var parts := Split(text, ',');
    SplitPartsFree(text, ',');
    forall i | 0 <= i < |parts|
      ensures Trim(parts[i]) != origin
    {
      TrimKeepsOut(parts[i], ',');
    }
    AllowedIffSomeEntry(origin, text);
  }

  /** An origin that starts or ends with white space is never on a configured
      list, since every entry is trimmed. */
  lemma {:induction false} PaddedOriginDenied(origin: string, text: string)
    requires origin != "" && (IsSpace(origin[0]) || IsSpace(origin[|origin| - 1]))
    ensures CheckOrigin(Some(origin), Some(text)) == Deny(DeniedMessage)
  {
    var parts := Split(text, ',');
    forall i | 0 <= i < |parts|
      ensures Trim(parts[i]) != origin
    {
      TrimEnds(parts[i]);
    }
    AllowedIffSomeEntry(origin, text);
  }

  /** ALLOWED_ORIGINS set to the empty string allows nothing. */
  lemma EmptyListDeniesAll(origin: Option<string>)
    ensures CheckOrigin(origin, Some("")).Deny?
  {
    assert Split("", ',') == [""];
    assert Trim("") == "";
  }

  /** Unset, it allows every present origin. */
  lemma UnsetAllowsAll(origin: string)
    requires origin != ""
    ensures CheckOrigin(Some(origin), None) == Allow
  {
  }

  /** A list of trimmed, comma-free origins written out with commas is read
      back as that list: exactly those origins are allowed. */
  lemma {:induction false} ListRoundTrip(origins: seq<string>)
    requires origins != []
    requires forall i :: 0 <= i < |origins| ==> ',' !in origins[i] && Trim(origins[i]) == origins[i]
    ensures AllowedOrigins(Some(Join(origins, ","))) == Some(origins)
    ensures forall o :: o != "" ==> (CheckOrigin(Some(o), Some(Join(origins, ","))) == Allow <==> o in origins)
  {
    SplitJoin(origins, ',');
    assert TrimAll(origins) == origins;
  }
}
