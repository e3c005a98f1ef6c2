/** `notify/utils.py`: the environment check and the HTML page around a table. */
module Utils {
  import opened Wrappers
  import opened Strings
  import opened Frames

  datatype EnvironmentVariablesError = EnvironmentVariablesError(message: string)

  /** `os.environ.get(name)`. */
  function Lookup(env: map<string, string>, name: string): (r: Option<string>)
    ensures r.Some? <==> name in env
    ensures r.Some? ==> r.value == env[name]
  {
    if name in env then Some(env[name]) else None
  }

  /** `all(values)` over optional strings. */
  function All(values: seq<Option<string>>): bool
  {
    |values| == 0 || (Truthy(values[0]) && All(values[1..]))
  }

  lemma {:induction false} AllIff(values: seq<Option<string>>)
    ensures All(values) <==> forall i :: 0 <= i < |values| ==> Truthy(values[i])
  {
    if |values| > 0 {
      AllIff(values[1..]);
      assert forall i :: 1 <= i < |values| ==> values[i] == values[1..][i - 1];
    }
  }

  /** A variable counts as set when it is present with a non-empty value. */
  predicate IsSet(env: map<string, string>, name: string)
  {
    name in env && env[name] != ""
  }

  const EnvErrorPrefix: string := "One of the environment variables "
  const EnvErrorSuffix: string := " is not set"

  /** The message of the error: every required variable, joined by `", "`, inside a fixed sentence. */
  function EnvErrorMessage(required: seq<string>): (m: string)
    ensures |m| == |EnvErrorPrefix| + |Join(required, ", ")| + |EnvErrorSuffix|
    ensures StartsWith(m, EnvErrorPrefix)
    ensures m[|EnvErrorPrefix|..|m| - |EnvErrorSuffix|] == Join(required, ", ")
    ensures m[|m| - |EnvErrorSuffix|..] == EnvErrorSuffix
  {
    var m := EnvErrorPrefix + Join(required, ", ") + EnvErrorSuffix;
    assert m[|EnvErrorPrefix|..|m| - |EnvErrorSuffix|] == Join(required, ", ");
    m
  }

  /**
   * `check_environment_variables(required)` against the environment `env`:
   * it passes exactly when every required variable is set and non-empty, and
   * otherwise fails with the message that lists all required variables.
   */
  function CheckEnvironmentVariables(required: seq<string>, env: map<string, string>): (r: Outcome<EnvironmentVariablesError>)
    ensures r.Pass? <==> forall i :: 0 <= i < |required| ==> IsSet(env, required[i])
    ensures r.Fail? ==> r.error.message == EnvErrorMessage(required)
  {
    var values := seq(|required|, i requires 0 <= i < |required| => Lookup(env, required[i]));
    AllIff(values);
    assert forall i :: 0 <= i < |required| ==> (Truthy(values[i]) <==> IsSet(env, required[i]));
    if All(values) then Pass
    else Fail(EnvironmentVariablesError(EnvErrorMessage(required)))
  }

  /** Nothing required, nothing to complain about. */
  lemma EmptyRequirementPasses(env: map<string, string>)
    ensures CheckEnvironmentVariables([], env).Pass?
  {
  }

  /** One unset or empty variable is enough to fail. */
  lemma MissingVariableFails(required: seq<string>, env: map<string, string>, i: nat)
    requires i < |required| && !IsSet(env, required[i])
    ensures CheckEnvironmentVariables(required, env).Fail?
  {
  }

  /** The error message names every required variable, where the `", "` join puts it. */
  lemma EnvErrorNamesEvery(required: seq<string>, i: nat)
    requires i < |required|
    ensures var m := EnvErrorMessage(required);
            var k := |EnvErrorPrefix| + JoinOffset(required, ", ", i);
            k + |required[i]| <= |m| && m[k..k + |required[i]|] == required[i]
  {
    var j := Join(required, ", ");
    var o := JoinOffset(required, ", ", i);
    JoinContains(required, ", ", i);
    SliceOfConcat(EnvErrorPrefix, j, EnvErrorSuffix, o, o + |required[i]|);
  }

  /** A slice inside the middle part of `a + b + c` is a slice of `b`. */
  lemma SliceOfConcat(a: string, b: string, c: string, lo: nat, hi: nat)
    requires lo <= hi <= |b|
    ensures (a + b + c)[|a| + lo..|a| + hi] == b[lo..hi]
  {
    assert (a + b + c)[|a|..|a| + |b|] == b;
  }

  /**
   * The head and style block that `dataframe_to_html` puts before every table,
   * line by line; it opens with a line break and ends by opening the body.
   */
  const HtmlHead: string :=
    "\n"
    + "        <head>\n"
    + "            <meta http-equiv=\"Content-Type\" content=\"text/html; charset=utf-8\">\n"
    + "            <title>Dataframe report</title>\n"
    + "            <style type=\"text/css\" media=\"screen\">\n"
    + "                h1 {\n"
    + "                    background-color: #a8a8a8;\n"
    + "                    display: flex;\n"
    + "                    flex-direction: column;\n"
    + "                    justify-content: center;\n"
    + "                    text-align: center;\n"
    + "                }\n"
    + "\n"
    + "                .styled-table {\n"
    + "                    border-collapse: collapse;\n"
    + "                    margin: 25px 0;\n"
    + "                    font-size: 0.9em;\n"
    + "                    font-family: sans-serif;\n"
    + "                    min-width: 400px;\n"
    + "                    box-shadow: 0 0 20px rgba(0, 0, 0, 0.15);\n"
    + "                }\n"
    + "\n"
    + "                .styled-table thead tr {\n"
    + "                    background-color: #009879;\n"
    + "                    color: #ffffff;\n"
    + "                    text-align: left;\n"
    + "                }\n"
    + "\n"
    + "                .styled-table th,\n"
    + "                .styled-table td {\n"
    + "                    padding: 12px 15px;\n"
    + "                }\n"
    + "\n"
    + "                .styled-table tbody tr {\n"
    + "                    border-bottom: thin solid #dddddd;\n"
    + "                }\n"
    + "\n"
    + "                .styled-table tbody tr:nth-of-type(even) {\n"
    + "                    background-color: #f3f3f3;\n"
    + "                }\n"
    + "\n"
    + "                .styled-table tbody tr.active-row {\n"
    + "                    font-weight: bold;\n"
    + "                    color: #009879;\n"
    + "                }\n"
    + "\n"
    + "                .styled-table tbody tr:last-of-type {\n"
    + "                    border-bottom: 2px solid #009879;\n"
    + "                }\n"
    + "            </style>\n"
    + "        </head>\n"
    + "        <body>"

  const BodyClose: string := "</body>"

  /**
   * `dataframe_to_html(df)`, where `toHtml` stands for pandas'
   * `df.to_html(index=False, classes="styled-table", justify="center")`:
   * the fixed head, then the table fragment, then `</body>`.
   */
  function DataframeToHtml(df: Frame, toHtml: Frame -> string): (r: string)
    ensures |r| >= |toHtml(df)| + |BodyClose| && r[|r| - |BodyClose|..] == BodyClose
  {
    HtmlHead + toHtml(df) + BodyClose
  }

  /**
   * The page is the fixed head, then the table fragment, then `</body>`; its
   * length is the head's plus the fragment's plus 7.
   */
  lemma DataframeToHtmlShape(df: Frame, toHtml: Frame -> string)
    ensures var r := DataframeToHtml(df, toHtml);
      && |r| == |HtmlHead| + |toHtml(df)| + 7
      && StartsWith(r, HtmlHead)
      && r[|HtmlHead|..|r| - |BodyClose|] == toHtml(df)
      && r[|r| - |BodyClose|..] == BodyClose
  {
    var r := DataframeToHtml(df, toHtml);
    assert r[|HtmlHead|..|r| - |BodyClose|] == toHtml(df);
  }

  /** The fixed head ends by opening the body, so the table sits between `<body>` and `</body>`. */
  lemma HtmlHeadOpensBody()
    ensures |HtmlHead| >= 6 && HtmlHead[|HtmlHead| - 6..] == "<body>"
  {
  }

  /** The page determines its table: two pages are equal only when their fragments are. */
  lemma DataframeToHtmlInjective(a: Frame, b: Frame, toHtml: Frame -> string)
    requires DataframeToHtml(a, toHtml) == DataframeToHtml(b, toHtml)
    ensures toHtml(a) == toHtml(b)
  {
    DataframeToHtmlShape(a, toHtml);
    DataframeToHtmlShape(b, toHtml);
  }
}
