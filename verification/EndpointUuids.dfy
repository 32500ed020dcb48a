/** The endpoint identifiers of the JSON-RPC interface (EndpointType): connector, "::", endpoint name. */
module EndpointUuids {

  predicate SeparatorAt(s: string, i: int) {
    0 <= i < |s| - 1 && s[i] == ':' && s[i + 1] == ':'
  }

  /** Where the last "::" of `s` begins, looking no further right than `from`; -1 if there is none. */
  function LastSeparator(s: string, from: int): (i: int)
    requires from < |s|
    ensures i == -1 || (i <= from && SeparatorAt(s, i))
    ensures forall j {:trigger SeparatorAt(s, j)} :: i < j <= from ==> !SeparatorAt(s, j)
    decreases from + 1
  {
    if from < 0 then -1
    else if SeparatorAt(s, from) then from
    else LastSeparator(s, from - 1)
  }

  function FormatUuid(conn: string, endpoint: string): string {
    conn + "::" + endpoint
  }

  /** Python's `rpartition`: everything goes into the endpoint when there is no separator. */
  function ParseUuid(uuid: string): (string, string) {
    var i := LastSeparator(uuid, |uuid| - 1);
    if i == -1 then ("", uuid) else (uuid[..i], uuid[i + 2..])
  }

  /** The endpoint name cannot be confused with the separator in front of it. */
  ghost predicate Unambiguous(endpoint: string) {
    && (endpoint == "" || endpoint[0] != ':')
    && forall i :: !SeparatorAt(endpoint, i)
  }

  lemma SeparatorsOfUuid(conn: string, endpoint: string, i: int)
    requires i >= |conn|
    ensures SeparatorAt(FormatUuid(conn, endpoint), i) <==>
            || i == |conn|
            || (i == |conn| + 1 && endpoint != "" && endpoint[0] == ':')
            || SeparatorAt(endpoint, i - |conn| - 2)
  {
  }

  /** The two parts come back exactly when the endpoint holds no "::" and does not start with ":". */
  lemma ParseOfFormat(conn: string, endpoint: string)
    ensures ParseUuid(FormatUuid(conn, endpoint)) == (conn, endpoint) <==> Unambiguous(endpoint)
  {
    var uuid := FormatUuid(conn, endpoint);
    var last := LastSeparator(uuid, |uuid| - 1);
    SeparatorsOfUuid(conn, endpoint, |conn|);
    if Unambiguous(endpoint) {
      if last > |conn| {
        SeparatorsOfUuid(conn, endpoint, last);
        assert false;
      }
      assert uuid[..|conn|] == conn && uuid[|conn| + 2..] == endpoint;
    } else {
      if endpoint != "" && endpoint[0] == ':' {
        SeparatorsOfUuid(conn, endpoint, |conn| + 1);
      } else {
        var i :| SeparatorAt(endpoint, i);
        SeparatorsOfUuid(conn, endpoint, i + |conn| + 2);
      }
      assert last > |conn|;
      assert |ParseUuid(uuid).0| > |conn|;
    }
  }

  /** Printing what was parsed gives back every identifier that has a separator at all. */
  lemma FormatOfParse(uuid: string)
    ensures FormatUuid(ParseUuid(uuid).0, ParseUuid(uuid).1) == uuid <==> exists i :: SeparatorAt(uuid, i)
  {
    var i := LastSeparator(uuid, |uuid| - 1);
    if i == -1 {
      forall j ensures !SeparatorAt(uuid, j) {}
      assert |FormatUuid("", uuid)| == |uuid| + 2;
    } else {
      assert SeparatorAt(uuid, i);
      assert uuid == uuid[..i] + "::" + uuid[i + 2..];
    }
  }
}
