/**
 * `notify/mail.py`: normalising the recipients given to `NotifyMail`, and the
 * Graph `Message` that `send_email` assembles from them before handing it to
 * the (left out) asynchronous send.
 */
module Mail {
  import opened Wrappers
  import opened Strings
  import opened Frames
  import opened Utils
  import Base64

  /** The environment variables `NotifyMail` insists on. */
  const MailVariables: seq<string> := ["EMAIL_USER", "MAIL_TENANT_ID", "MAIL_CLIENT_ID", "MAIL_CLIENT_SECRET"]

  /** The `files` argument as a caller may pass it: nothing, one path, a list of paths, or a name-to-path dict. */
  datatype FilesArg =
    | NoFilesArg
    | PathArg(path: string)
    | PathListArg(paths: seq<string>)
    | FileDictArg(entries: seq<(string, string)>)

  /** `self.files`: a single path has been wrapped in a list; a dict keeps its iteration order. */
  datatype Files =
    | NoFiles
    | PathList(paths: seq<string>)
    | FileDict(entries: seq<(string, string)>)

  /** The fields `NotifyMail.__init__` assigns; none of them changes afterwards. */
  datatype NotifyMail = NotifyMail(
    sender: string,
    to: string,
    cc: Option<string>,
    bcc: Option<string>,
    subject: string,
    message: string,
    files: Files,
    df: Frame)

  /** The constructor wraps a lone path in a one-element list and keeps anything else as given. */
  function WrapFiles(files: FilesArg): (r: Files)
    ensures files.NoFilesArg? <==> r.NoFiles?
    ensures files.PathArg? ==> r == PathList([files.path])
    ensures files.PathListArg? ==> r == PathList(files.paths)
    ensures files.FileDictArg? ==> r == FileDict(files.entries)
  {
    match files
    case NoFilesArg => NoFiles
    case PathArg(p) => PathList([p])
    case PathListArg(ps) => PathList(ps)
    case FileDictArg(d) => FileDict(d)
  }

  /** Recipient normalisation: every semicolon becomes a comma; applied to `to`, and to `cc` and `bcc` when given. */
  function Normalise(s: string): (r: string)
    ensures ';' !in r
    ensures |r| == |s|
    ensures forall i :: 0 <= i < |s| ==> r[i] == if s[i] == ';' then ',' else s[i]
  {
    ReplaceChar(s, ';', ',')
  }

  function NormaliseOpt(s: Option<string>): (r: Option<string>)
    ensures r.None? <==> s.None?
    ensures r.Some? ==> r.value == Normalise(s.value)
  {
    match s
    case None => None
    case Some(v) => Some(Normalise(v))
  }

  /**
   * `NotifyMail(to, subject, message, cc, bcc, files, df)` in the environment
   * `env`: fails with `EnvironmentVariablesError` when a mail variable is unset
   * or empty; otherwise records the sender and the normalised recipients.
   */
  function Init(env: map<string, string>, to: string, subject: string, message: string,
                cc: Option<string>, bcc: Option<string>, files: FilesArg, df: Frame)
    : (r: Result<NotifyMail, EnvironmentVariablesError>)
    ensures r.Failure? <==> exists i :: 0 <= i < |MailVariables| && !IsSet(env, MailVariables[i])
    ensures r.Failure? ==> r.error.message == EnvErrorMessage(MailVariables)
    ensures r.Success? ==>
      && "EMAIL_USER" in env && r.value.sender == env["EMAIL_USER"]
      && r.value.to == Normalise(to) && ';' !in r.value.to
      && (r.value.cc.None? <==> cc.None?) && (cc.Some? ==> ';' !in r.value.cc.value)
      && (r.value.bcc.None? <==> bcc.None?) && (bcc.Some? ==> ';' !in r.value.bcc.value)
      && r.value.cc == NormaliseOpt(cc) && r.value.bcc == NormaliseOpt(bcc)
      && r.value.subject == subject && r.value.message == message
      && r.value.files == WrapFiles(files) && r.value.df == df
  {
    match CheckEnvironmentVariables(MailVariables, env)
    case Fail(e) => Failure(e)
    case Pass =>
      assert IsSet(env, MailVariables[0]);
      Success(NotifyMail(env["EMAIL_USER"], Normalise(to), NormaliseOpt(cc), NormaliseOpt(bcc),
                         subject, message, WrapFiles(files), df))
  }

  /** Graph SDK models the message is built from. */
  datatype EmailAddress = EmailAddress(address: string)
  datatype Recipient = Recipient(emailAddress: EmailAddress)
  datatype BodyType = Html
  datatype ItemBody = ItemBody(content: string, contentType: BodyType)
  datatype FileAttachment = FileAttachment(odataType: string, name: string, contentBytes: seq<Base64.byte>)
  datatype Message = Message(
    toRecipients: seq<Recipient>,
    subject: string,
    sender: Recipient,
    fromRecipient: Recipient,
    ccRecipients: Option<seq<Recipient>>,
    bccRecipients: Option<seq<Recipient>>,
    body: ItemBody,
    attachments: Option<seq<FileAttachment>>)
  datatype SendMailPostRequestBody = SendMailPostRequestBody(message: Message, saveToSentItems: bool)

  /** What `send_email` raises before anything is sent. */
  datatype MailError = AttributeError(message: string)

  const FileAttachmentType: string := "#microsoft.graph.fileAttachment"

  function Addresses(rs: seq<Recipient>): (r: seq<string>)
    ensures |r| == |rs| && forall i :: 0 <= i < |rs| ==> r[i] == rs[i].emailAddress.address
  {
    seq(|rs|, i requires 0 <= i < |rs| => rs[i].emailAddress.address)
  }

  /** The append loop that turns each address into a `Recipient`, in order. */
  method ToRecipients(addresses: seq<string>) returns (rs: seq<Recipient>)
    ensures |rs| == |addresses|
    ensures forall i :: 0 <= i < |rs| ==> rs[i] == Recipient(EmailAddress(addresses[i]))
    ensures Addresses(rs) == addresses
  {
    rs := [];
    for i := 0 to |addresses|
      invariant |rs| == i
      invariant forall k :: 0 <= k < i ==> rs[k] == Recipient(EmailAddress(addresses[k]))
    {
      rs := rs + [Recipient(EmailAddress(addresses[i]))];
    }
  }

  /** The test in `read_file_content`: a path is fetched over the network when it starts with `http` or `www`. */
  predicate IsRemote(path: string): (r: bool)
    ensures r <==> exists t :: path == "http" + t || path == "www" + t
  {
    StartsWithIff(path, "http");
    StartsWithIff(path, "www");
    StartsWith(path, "http") || StartsWith(path, "www")
  }

  /** The raw bytes behind a path: downloaded for a remote one, read from disk otherwise; both readers are parameters. */
  function SourceBytes(path: string, readUrl: string -> seq<Base64.byte>, readFile: string -> seq<Base64.byte>)
    : (r: seq<Base64.byte>)
    ensures IsRemote(path) ==> r == readUrl(path)
    ensures !IsRemote(path) ==> r == readFile(path)
  {
    if IsRemote(path) then readUrl(path) else readFile(path)
  }

  /** `read_file_content(path)`: the source bytes, base64-encoded with the standard alphabet. */
  function ReadFileContent(path: string, readUrl: string -> seq<Base64.byte>, readFile: string -> seq<Base64.byte>)
    : (r: string)
    ensures Base64.UrlsafeB64Decode(r) == Some(SourceBytes(path, readUrl, readFile))
  {
    Base64.UrlsafeRoundTrip(SourceBytes(path, readUrl, readFile));
    Base64.B64Encode(SourceBytes(path, readUrl, readFile))
  }

  /** One attachment per entry, in order, of the file-attachment type, named by the key and holding the raw bytes. */
  predicate AttachmentsOf(atts: seq<FileAttachment>, entries: seq<(string, string)>,
                          readUrl: string -> seq<Base64.byte>, readFile: string -> seq<Base64.byte>)
  {
    && |atts| == |entries|
    && forall k :: 0 <= k < |atts| ==>
         atts[k] == FileAttachment(FileAttachmentType, entries[k].0, SourceBytes(entries[k].1, readUrl, readFile))
  }

  /** The loop over the entries of `files`: one attachment per entry, named by its key, holding the raw bytes. */
  method BuildAttachments(entries: seq<(string, string)>,
                          readUrl: string -> seq<Base64.byte>, readFile: string -> seq<Base64.byte>)
    returns (atts: seq<FileAttachment>)
    ensures AttachmentsOf(atts, entries, readUrl, readFile)
  {
    atts := [];
    for i := 0 to |entries|
      invariant |atts| == i
      invariant forall k :: 0 <= k < i ==>
        atts[k] == FileAttachment(FileAttachmentType, entries[k].0, SourceBytes(entries[k].1, readUrl, readFile))
    {
      var (name, path) := entries[i];
      var content := ReadFileContent(path, readUrl, readFile);
      var decoded := Base64.UrlsafeB64Decode(content);
      atts := atts + [FileAttachment(FileAttachmentType, name, decoded.value)];
    }
  }

  /**
   * The table part of the body: nothing for 0 records, the whole frame for 1
   * to 30, and the first 30 records otherwise; `toHtml` stands for pandas'
   * `to_html`.
   */
  function HtmlTable(df: Frame, toHtml: Frame -> string): (r: string)
    ensures |df.rows| == 0 ==> r == ""
    ensures |df.rows| > 0 ==> r == DataframeToHtml(Capped(df), toHtml)
  {
    if 1 <= |df.rows| < 31 then
      assert Capped(df) == df;
      DataframeToHtml(df, toHtml)
    else if |df.rows| > 30 then
      assert Capped(df) == Head(df, 30);
      DataframeToHtml(Head(df, 30), toHtml)
    else ""
  }

  /** A non-empty list of paths gets past the truthiness test, but a list has no `items`: `send_email` raises. */
  predicate FilesRaise(files: Files)
  {
    files.PathList? && |files.paths| > 0
  }

  /** `send_email` raises exactly for a lone path or a non-empty list of paths, whatever else was given. */
  lemma FilesRaiseIff(files: FilesArg)
    ensures FilesRaise(WrapFiles(files)) <==> files.PathArg? || (files.PathListArg? && |files.paths| > 0)
  {
  }

  /** A single path, the documented way to attach one file, always makes `send_email` raise. */
  lemma PathArgRaises(env: map<string, string>, to: string, subject: string, message: string,
                      cc: Option<string>, bcc: Option<string>, path: string, df: Frame)
    requires Init(env, to, subject, message, cc, bcc, PathArg(path), df).Success?
    ensures FilesRaise(Init(env, to, subject, message, cc, bcc, PathArg(path), df).value.files)
  {
  }

  /** The `cc` and `bcc` lists: set only for a non-empty field, one recipient per comma segment, untrimmed. */
  method OptionalRecipients(field: Option<string>) returns (rs: Option<seq<Recipient>>)
    ensures rs.Some? <==> Truthy(field)
    ensures rs.Some? ==> Addresses(rs.value) == Split(field.value, ',')
  {
    rs := None;
    if Truthy(field) {
      var list := ToRecipients(Split(field.value, ','));
      rs := Some(list);
    }
  }

  /**
   * The HTML body: the message, then the capped table. `warnings` counts the
   * truncation warning logged for more than 30 records.
   */
  method BuildBody(message: string, df: Frame, toHtml: Frame -> string)
    returns (body: ItemBody, ghost warnings: nat)
    ensures body.contentType == Html
    ensures body.content == message + HtmlTable(df, toHtml)
    ensures warnings == if ExceedsLimit(df) then 1 else 0
  {
    var htmlTable := HtmlTable(df, toHtml);
    warnings := if ExceedsLimit(df) then 1 else 0;
    body := ItemBody(message, Html);
    body := body.(content := body.content + htmlTable);
  }

  /** Whatever the table, the body starts with the caller's message. */
  lemma MessageIsPrefix(message: string, df: Frame, toHtml: Frame -> string)
    ensures StartsWith(message + HtmlTable(df, toHtml), message)
  {
    StartsWithConcat(message, HtmlTable(df, toHtml));
  }

  /** The message before attachments: recipients, sender, subject and the body with its table. */
  method BuildMessage(m: NotifyMail, toHtml: Frame -> string) returns (msg: Message, ghost warnings: nat)
    ensures warnings == if ExceedsLimit(m.df) then 1 else 0
    ensures Addresses(msg.toRecipients) == Split(m.to, ',')
    ensures msg.sender == Recipient(EmailAddress(m.sender)) && msg.fromRecipient == msg.sender
    ensures msg.subject == m.subject
    ensures msg.ccRecipients.Some? <==> Truthy(m.cc)
    ensures Truthy(m.cc) ==> Addresses(msg.ccRecipients.value) == Split(m.cc.value, ',')
    ensures msg.bccRecipients.Some? <==> Truthy(m.bcc)
    ensures Truthy(m.bcc) ==> Addresses(msg.bccRecipients.value) == Split(m.bcc.value, ',')
    ensures msg.body.contentType == Html && msg.body.content == m.message + HtmlTable(m.df, toHtml)
    ensures msg.attachments.None?
  {
    var sender := Recipient(EmailAddress(m.sender));
    var recipients := ToRecipients(Split(m.to, ','));
    var ccRecipients := OptionalRecipients(m.cc);
    var bccRecipients := OptionalRecipients(m.bcc);
    var body;
    body, warnings := BuildBody(m.message, m.df, toHtml);
    msg := Message(recipients, m.subject, sender, sender, ccRecipients, bccRecipients, body, None);
  }

  /**
   * `send_email()` up to the send itself: the request body it posts, or the
   * error it raises first. Pandas' `to_html` and the two readers are
   * parameters; `warnings` counts the truncation warnings logged.
   */
  method SendEmail(m: NotifyMail, toHtml: Frame -> string,
                   readUrl: string -> seq<Base64.byte>, readFile: string -> seq<Base64.byte>)
    returns (r: Result<SendMailPostRequestBody, MailError>, ghost warnings: nat)
    ensures r.Failure? <==> FilesRaise(m.files)
    ensures warnings == if ExceedsLimit(m.df) then 1 else 0
    ensures r.Success? ==> r.value.saveToSentItems
    ensures r.Success? ==>
      var msg := r.value.message;
      && Addresses(msg.toRecipients) == Split(m.to, ',')
      && msg.sender == Recipient(EmailAddress(m.sender)) && msg.fromRecipient == msg.sender
      && msg.subject == m.subject
      && (msg.ccRecipients.Some? <==> Truthy(m.cc))
      && (Truthy(m.cc) ==> Addresses(msg.ccRecipients.value) == Split(m.cc.value, ','))
      && (msg.bccRecipients.Some? <==> Truthy(m.bcc))
      && (Truthy(m.bcc) ==> Addresses(msg.bccRecipients.value) == Split(m.bcc.value, ','))
    ensures r.Success? ==>
      var body := r.value.message.body;
      && body.contentType == Html
      && body.content == m.message + HtmlTable(m.df, toHtml)
    ensures r.Success? ==>
      var atts := r.value.message.attachments;
      && (atts.Some? <==> m.files.FileDict? && |m.files.entries| > 0)
      && (atts.Some? ==> AttachmentsOf(atts.value, m.files.entries, readUrl, readFile))
  {
    var message;
    message, warnings := BuildMessage(m, toHtml);
    match m.files {
      case NoFiles =>
      case PathList(paths) =>
        if |paths| > 0 {
          r := Failure(AttributeError("'list' object has no attribute 'items'"));
          return;
        }
      case FileDict(entries) =>
        if |entries| > 0 {
          var list := BuildAttachments(entries, readUrl, readFile);
          message := message.(attachments := Some(list));
        }
    }
    r := Success(SendMailPostRequestBody(message, true));
  }
}
