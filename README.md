# zyppnotify in Dafny

This project models the decision logic of `zyppnotify`. That package sends
notifications: e-mail through Microsoft Graph and cards to Microsoft Teams
channels, through `pymsteams`. The model covers the parts that belong to the
package itself and leaves out the libraries around them.

- `utils.dfy` (module `Utils`) covers the environment-variable check and the
  HTML page that wraps a table.
- `mail.dfy` (module `Mail`) covers what `NotifyMail` does before the send:
  - the constructor normalises the recipients;
  - `send_email` assembles the Graph request: recipients, capped table,
    HTML body and attachments.
- `teams.dfy` (module `Teams`) covers `NotifyTeams`. It fills in a
  connector card, modelled as a class with fields that its methods update in
  place. Sections and buttons are only ever appended; the title and text are
  overwritten by each call that sets them.
- Supporting modules:
  - `frames.dfy`: pandas data frames as records plus a column count, with
    `shape`, `empty`, `head` and the 30-record cap;
  - `strings.dfy`: `startswith`, `replace`, `split`, `join` and decimal
    formatting;
  - `base64.dfy`: standard base64 encoding and base64url decoding, as in
    sections 4 and 5 of RFC 4648;
  - `wrappers.dfy`: `Option`, `Result`, `Outcome` and Python truthiness of
    optional strings and collections.

Library calls the model cannot see are function parameters:
- `toHtml` stands for pandas' `to_html`;
- `toMarkdown` stands for pandas' `to_markdown`;
- `readUrl` and `readFile` stand for downloading a URL and reading a file.

The process environment is a `map<string, string>` parameter. Logged
warnings are counted in ghost state.

## Model

| member | source | states |
|---|---|---|
| Utils.AllIff | notify/utils.py:21-23 | `all` over the looked-up values holds iff every value is present and non-empty |
| Utils.CheckEnvironmentVariables | notify/utils.py:8-26 | passes iff every required variable is set to a non-empty value; otherwise fails with `EnvironmentVariablesError` carrying the fixed message |
| Utils.EmptyRequirementPasses | notify/utils.py:21-23 | an empty list of required variables never fails |
| Utils.MissingVariableFails | notify/utils.py:21-26 | one unset or empty required variable is enough to fail |
| Utils.EnvErrorMessage | notify/utils.py:24-25 | the message is the fixed opening, the names joined by `", "`, then `" is not set"`, with its exact length |
| Utils.EnvErrorNamesEvery | notify/utils.py:25 | every required name occurs in the error message, at the place the join puts it |
| Utils.DataframeToHtml | notify/utils.py:29-100 | the page that wraps a table ends with `</body>` and is at least 7 characters longer than the fragment; its full shape is the next row |
| Utils.DataframeToHtmlShape | notify/utils.py:41-100 | the page is the fixed head for any frame, then the table fragment, then `</body>`; its length is the head's plus the fragment's plus 7 |
| Utils.DataframeToHtmlInjective | notify/utils.py:43-98 | two pages are equal only when their table fragments are, so the page determines the fragment |
| Utils.HtmlHeadOpensBody | notify/utils.py:94-95 | the fixed head ends with `<body>`, so the fragment sits between `<body>` and `</body>` |
| Frames.Head | notify/mail.py:122 | `head(n)` keeps the first `n` records in order, or all of them when there are fewer, and keeps the columns |
| Frames.Capped | notify/teams.py:38-40 | the frame rendered has the first `min(records, 30)` records in order; it equals the input iff the input has at most 30 records |
| Frames.CappedIdempotent | notify/teams.py:38-40 | capping twice is capping once |
| Frames.CappedKeepsEmptiness | notify/teams.py:38-40 | capping never makes a non-empty frame empty, nor an empty one non-empty |
| Strings.ReplaceChar | notify/mail.py:57-59 | each `;` becomes `,`, other characters are unchanged, the length is kept and no `;` is left |
| Strings.ReplaceCharIdempotent | notify/mail.py:57-59 | normalising a normalised string changes nothing |
| Strings.Split | notify/mail.py:90 | `split(",")` gives at least one segment, and no segment holds a comma |
| Strings.JoinSplit | notify/mail.py:90 | joining the segments with `,` gives back the string, so nothing is trimmed or dropped |
| Strings.SplitJoin | notify/mail.py:90 | splitting a join of comma-free parts gives back the parts |
| Strings.JoinContains | notify/utils.py:25 | each element occurs in the join at its computed offset |
| Strings.DecimalRoundTrip | notify/teams.py:66 | the decimal digits of a count parse back to the count |
| Strings.DecimalInjective | notify/teams.py:66 | distinct counts format to distinct digit strings |
| Strings.DigitsThenOther | notify/teams.py:66 | a run of digits followed by a non-digit is split at a unique point |
| Strings.StartsWithIff | notify/mail.py:69 | `startswith(p)` holds iff the string is `p` followed by something |
| Base64.B64Encode | notify/mail.py:71-74 | the encoding has 4 characters per started group of 3 bytes |
| Base64.StdRoundTrip | notify/mail.py:71-74 | standard decoding of the standard encoding gives back the bytes |
| Base64.UrlsafeToStdIdentity | notify/mail.py:136 | translating from the RFC 4648 section 5 alphabet leaves text without `-` or `_`, such as the encoder's output, unchanged |
| Base64.UrlsafeB64Decode | notify/mail.py:136 | on text without `-` or `_` the base64url decoder is the standard decoder |
| Base64.UrlsafeRoundTrip | notify/mail.py:132-136 | `urlsafe_b64decode(b64encode(x))` is `x` for all byte strings |
| Mail.WrapFiles | notify/mail.py:62 | a lone path becomes a one-element list; no files, a list or a dict is kept as given |
| Mail.Normalise | notify/mail.py:57-59 | the normalised recipient string has the same length, commas for semicolons and no `;` |
| Mail.NormaliseOpt | notify/mail.py:58-59 | a missing `cc` or `bcc` stays missing; a given one is normalised |
| Mail.Init | notify/mail.py:55-63 | fails iff a mail variable is unset or empty, with the joined message; otherwise the sender is `EMAIL_USER`, `to`, `cc` and `bcc` hold no `;`, and `None` stays `None` |
| Mail.ToRecipients | notify/mail.py:90-94 | one recipient per address, in order, whose addresses are exactly the input |
| Mail.OptionalRecipients | notify/mail.py:99-115 | a cc or bcc list is set iff the field is non-empty, and then its addresses are the untrimmed comma segments in order |
| Mail.IsRemote | notify/mail.py:69 | a path counts as remote iff it is `"http"` or `"www"` followed by anything |
| Mail.SourceBytes | notify/mail.py:69-74 | the bytes come from the URL reader for a remote path and from the file reader otherwise |
| Mail.ReadFileContent | notify/mail.py:67-76 | the content decodes with base64url to exactly the raw bytes of the file or URL |
| Mail.BuildAttachments | notify/mail.py:130-138 | one attachment per entry, in order, of type `#microsoft.graph.fileAttachment`, named by the key and holding the raw bytes |
| Mail.HtmlTable | notify/mail.py:117-124 | 0 records give `""`; otherwise the page of the capped frame: the whole frame for 1 to 30 records, the first 30 otherwise |
| Mail.BuildBody | notify/mail.py:116-126 | the body is HTML and its content is the message followed by the table; one warning is logged iff there are more than 30 records |
| Mail.MessageIsPrefix | notify/mail.py:116-126 | the message is always a prefix of the body content |
| Mail.FilesRaiseIff | notify/mail.py:62-131 | `send_email` raises exactly when `files` was a lone path or a non-empty list of paths |
| Mail.PathArgRaises | notify/mail.py:128-131 | a lone path given as `files` always ends in the `AttributeError` |
| Mail.BuildMessage | notify/mail.py:87-127 | the message before attachments: to, cc and bcc recipients are the comma segments (cc and bcc only when non-empty), sender, from and subject are set, the body is message plus table, no attachments yet, one warning iff more than 30 records |
| Mail.SendEmail | notify/mail.py:87-140 | raises `AttributeError` iff `files` is a non-empty list. Otherwise: the to, cc and bcc recipients are the comma segments; sender, from and subject are set; the body is message plus table; attachments exist iff `files` is a non-empty dict, one per entry; saving to sent items is on |
| Teams.ReportSection | notify/teams.py:63-66 | a report section has a title holding the dataset's name at offset 7, the fixed image, and a text whose digits after `"> In totaal **"` are the record count |
| Teams.TableSection | notify/teams.py:38-44 | the table section has only a text: the markdown of the whole frame for at most 30 records, of the first 30 otherwise |
| Teams.ReportSections | notify/teams.py:62-67 | one section per dataset, in order, each built from that dataset's name and shape |
| Teams.Buttons | notify/teams.py:84-85 | one link button per entry, in order, with label and URL kept |
| Teams.ReportTitleName | notify/teams.py:64 | the report title holds the dataset's name, at a fixed offset |
| Teams.ReportTitleInjective | notify/teams.py:64 | distinct names give distinct titles |
| Teams.ReportTextInjective | notify/teams.py:66 | the report text determines both the record count and the column count it was written from |
| Teams.ReportSectionInjective | notify/teams.py:62-67 | a report section determines its dataset's name and shape |
| Teams.TableSectionLast | notify/teams.py:122-126 | a table section is added, as the last section, iff the frame is not empty; every report-style section comes from a dataset |
| Teams.MessageCallsOrder | notify/teams.py:117-129 | `basic_message` sets the title first and then adds text, report sections, table section and buttons, never out of that order |
| Teams.ConnectorCard.constructor | notify/teams.py:19 | a card for the webhook starts with nothing set and no sections or buttons |
| Teams.ConnectorCard.Title | notify/teams.py:117 | sets the title and nothing else |
| Teams.ConnectorCard.Text | notify/teams.py:120 | sets the text and nothing else |
| Teams.ConnectorCard.Color | notify/teams.py:20 | sets the colour and nothing else |
| Teams.ConnectorCard.AddSection | notify/teams.py:45 | appends one section and changes nothing else |
| Teams.ConnectorCard.AddLinkButton | notify/teams.py:85 | appends one button and changes nothing else |
| Teams.NotifyTeams.constructor | notify/teams.py:10-20 | a fresh card for the webhook whose only call so far set the colour to `#F0B62E` |
| Teams.NotifyTeams.AddFullDataframe | notify/teams.py:22-45 | appends exactly one section: the markdown of the first 30 records when there are more, with one warning, else of the whole frame |
| Teams.NotifyTeams.CreateDataframeReport | notify/teams.py:47-67 | appends the report sections of the datasets, in order, after the existing ones; nothing else changes |
| Teams.NotifyTeams.CreateButtons | notify/teams.py:69-85 | appends one button per entry, in order, after the existing ones; nothing else changes |
| Teams.NotifyTeams.AddMessageSections | notify/teams.py:122-126 | appends the report sections of a non-empty mapping, then the table section of a non-empty frame, and nothing else; one warning iff the frame is non-empty and over 30 records |
| Teams.NotifyTeams.BasicMessage | notify/teams.py:87-129 | states the calls and the resulting card: the title always; the text only for a non-empty message; then the report sections; the table section iff the frame is non-empty; the buttons only for a non-empty mapping. Sections grow by `len(dfs)` plus one for a non-empty frame; existing sections and buttons are kept in front |

## Left out

- Graph authentication and the asynchronous send with its error re-wrapping
  (`notify/mail.py:64-65,141-155`). These are network I/O and async code.
  `notify/msgraph.py` is not part of this model. `Mail.SendEmail` stops at
  the request body it would post.
- Downloading a URL and reading a file (`notify/mail.py:70-74`). These are
  I/O and are parameters `readUrl` and `readFile`. Only the prefix test that
  chooses between them is modelled.
- The `pymsteams` transport (`self.msg.send()`, `notify/teams.py:131`) and
  the HTTP post it makes. The internals of pandas' `to_html` and
  `to_markdown` are opaque parameters.
- Logging. The truncation warning is a ghost counter: `warnings` on
  `NotifyTeams`, and a ghost result of `Mail.BuildBody` and
  `Mail.SendEmail`. The warning text is not modelled.
- The other parts of the repository:
  - packaging and version scripts (`setup.py`, `scripts/`);
  - random test-data generation (`notify/tests/__init__.py`);
  - `notify/exceptions.py` as a module: its `EnvironmentVariablesError` is
    the datatype `Utils.EnvironmentVariablesError`, and its
    `DataFrameTooLarge` is never raised and is not modelled. `Mail.MailError`
    stands for Python's built-in `AttributeError`, not for anything in that
    file;
  - `format_numbers` and `notify.types`, which are not part of this model.
- Base64.UrlsafeB64Decode: Python's decoder does not validate by default
  and discards characters outside the alphabet. This decoder rejects them
  instead. The two agree on everything `b64encode` produces, which is all
  the attachment path ever decodes.
- Mail.SendEmail: the `files` defect is modelled as the error the code
  raises. A lone path is wrapped in a list (`notify/mail.py:62`), and
  `.items()` is then called on that list (`notify/mail.py:131`). The model
  returns `Failure(AttributeError(...))` whenever `files` is a non-empty list,
  rather than forbidding such input by a precondition. The only error
  modelled is that one.
- Mail.BuildAttachments: a dict argument is an ordered list of key and path
  pairs, and nothing stops a key from repeating. The model therefore admits
  key lists that a Python dict cannot produce; for those it gives one
  attachment per entry, repeats included.
- Utils.DataframeToHtmlShape: it fixes where the fragment sits, between the
  head, which ends in `<body>`, and `</body>`. It does not say the fragment
  occurs nowhere else in the page, because a fragment such as `"a"` occurs
  inside the head too.
- Teams.ConnectorCard: it is an abstraction of `pymsteams.connectorcard`
  and `cardsection`. It keeps only what this code sets: the title, text,
  colour, sections with activity title, image and text, and link buttons.
  The ghost `calls` log records the order of calls.
- Teams.NotifyTeams.BasicMessage: `message` is `Option<string>`, and `dfs`
  and `buttons` are optional ordered sequences standing for dicts. The
  truthiness of other Python values is not modelled.
- Splitting text on `<br>`, inserting sections at an index and rejecting
  oversized frames are not modelled. The code modelled here does none of them.

## Behaviour of the code

Oversized frames are only ever truncated with a warning. `DataFrameTooLarge`
is declared in `notify/exceptions.py:7` but never raised, and nothing rejects
a frame. Sections and buttons are only ever appended: nothing inserts at an
index, reorders or removes them. The title and text are overwritten by each
call that sets them.
