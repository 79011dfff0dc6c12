/**
 * The `qbit/addTorrent` tool: its argument schema (one URL, which must be a
 * magnet link or an HTTP(S) URL) and its execution through the client.
 */
module AddTorrentTool {
  import opened JsValues
  import opened QBit

  const Name: string := "qbit/addTorrent"
  const AddedMessage: string := "Torrent added successfully."
  const NotAddedMessage: string := "Failed to add torrent."

  /** The `refine` step of the schema: the URL starts with one of the accepted schemes. */
  predicate HasAcceptedScheme(url: string) {
    "magnet:" <= url || "http://" <= url || "https://" <= url
  }

  /**
   * `AddTorrentInputSchema.parse(args)`: the validated URL, or None where zod throws.
   * `isUrl` stands for zod's `.url()` check.
   */
  function ParseArgs(args: map<string, Json>, isUrl: string -> bool): (url: Option<string>)
    ensures url.Some? ==> Get(args, "url") == JStr(url.value)
    ensures url.Some? <==>
      && Get(args, "url").JStr?
      && |Get(args, "url").s| >= 1
      && isUrl(Get(args, "url").s)
      && HasAcceptedScheme(Get(args, "url").s)
  {
    match Get(args, "url")
    case JStr(u) => if |u| >= 1 && isUrl(u) && HasAcceptedScheme(u) then Some(u) else None
    case _ => None
  }

  /** A well-formed URL of another scheme is rejected, whatever the URL check says. */
  lemma OtherSchemesRejected(isUrl: string -> bool)
    ensures ParseArgs(map["url" := JStr("ftp://example.org/a.torrent")], isUrl).None?
  {
    var u := "ftp://example.org/a.torrent";
    assert !("magnet:" <= u) && !("http://" <= u) && !("https://" <= u) by {
      assert u[0] == 'f';
    }
  }

  /** The object `execute` returns for the client's answer. */
  function Content(success: Json): (r: Json)
    ensures r.JObj? && r.fields.Keys == {"success", "message"}
    ensures r.fields["success"] == success
    ensures r.fields["message"] == JStr(if Truthy(success) then AddedMessage else NotAddedMessage)
  {
    JObj(map["success" := success, "message" := JStr(if Truthy(success) then AddedMessage else NotAddedMessage)])
  }

  /**
   * How `execute` completes, given how `qbitClient.addTorrent(url)` completed:
   * a thrown error propagates, a returned value becomes the `success` field.
   */
  function ExecuteResult(added: Result<Json, Failure>): (c: Completion)
    ensures added.Err? ==> c == Threw(ErrorWithMessage(added.error.message))
    ensures added.Ok? ==> c.Returned? && c.value.JObj? && c.value.fields.Keys == {"success", "message"}
    ensures added.Ok? ==> c.value.fields["success"] == added.value
    ensures added.Ok? ==> c.value.fields["message"] == JStr(if Truthy(added.value) then AddedMessage else NotAddedMessage)
  {
    match added
    case Ok(success) => Returned(Content(success))
    case Err(f) => Threw(ErrorWithMessage(f.message))
  }

  /**
   * The reported success is true exactly when the backend acknowledged the
   * request with "Ok." (white space around it allowed).
   */
  lemma SuccessIffAcknowledged(data: Result<Json, Failure>)
    ensures var c := ExecuteResult(AddTorrentResult(data));
      && (c.Returned? && c.value.fields["message"] == JStr(AddedMessage)
          <==> data.Ok? && data.value.JStr? && Padded(data.value.s, OkAck))
      && (c.Returned? && c.value.fields["message"] == JStr(AddedMessage) ==> c.value.fields["success"] == JBool(true))
  {
    var r := AddTorrentResult(data);
    if r.Ok? {
      assert ExecuteResult(r) == Returned(Content(r.value));
      assert AddedMessage != NotAddedMessage;
    }
  }

  /** `execute(args)`: one call of `qbitClient.addTorrent` with exactly the given URL. */
  method Execute(client: QBitClient, net: Backend, url: string) returns (c: Completion)
    modifies client`cookie, net
    ensures c == ExecuteResult(AddTorrentResult(old(client.Planned(net, TorrentsAdd(url))).result))
    ensures net.sent == old(net.sent) + old(client.Planned(net, TorrentsAdd(url))).sent
    ensures forall k :: |old(net.sent)| <= k < |net.sent| ==> net.sent[k].call == TorrentsAdd(url)
    ensures net.logins == old(net.logins) + old(client.Planned(net, TorrentsAdd(url))).logins
    ensures client.cookie == old(client.Planned(net, TorrentsAdd(url))).cookie
  {
    var added := client.AddTorrent(net, url);
    c := ExecuteResult(added);
  }
}
