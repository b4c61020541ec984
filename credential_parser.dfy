/**
 * The credential text parser (`useCredentialParser`): pasted shell text is
 * read line by line, `export KEY=VALUE` and `KEY=VALUE` assignments to the
 * four AWS variables fill in a partial profile, and everything else is
 * ignored. The two regular expressions the parser applies are written out
 * with the semantics of a JavaScript `match` without flags: the leftmost
 * position at which the pattern matches, greedy repetition, and `.`
 * stopping at a line terminator.
 */
module CredentialParser {
  import opened Wrappers
  import opened Strings

  /** The partial profile the parser fills in; a field it never assigns stays absent. */
  datatype Credentials = Credentials(
    accessKeyId: Option<string>,
    secretAccessKey: Option<string>,
    sessionToken: Option<string>,
    region: Option<string>)

  const NoCredentials := Credentials(None, None, None, None)

  /** The two captured groups of a match: the key and the value text. */
  datatype Assignment = Assignment(key: string, value: string)

  // -----------------------------------------------------------------------
  // Regular-expression building blocks
  // -----------------------------------------------------------------------

  /** The first position at or after `from` holding `c`, or `|s|` when there is none. */
  function IndexOfFrom(s: string, c: char, from: nat): (k: nat)
    requires from <= |s|
    ensures from <= k <= |s|
    ensures forall i :: from <= i < k ==> s[i] != c
    ensures k < |s| ==> s[k] == c
    decreases |s| - from
  {
    if from == |s| || s[from] == c then from else IndexOfFrom(s, c, from + 1)
  }

  /** How far `\s+` reaches from `from`: the length of the white-space run. */
  function SpaceRun(s: string, from: nat): (n: nat)
    requires from <= |s|
    ensures from + n <= |s|
    ensures forall i :: from <= i < from + n ==> IsSpace(s[i])
    ensures from + n < |s| ==> !IsSpace(s[from + n])
    decreases |s| - from
  {
    if from < |s| && IsSpace(s[from]) then 1 + SpaceRun(s, from + 1) else 0
  }

  /** How far `.+` reaches from `from`: the length of the run without line terminators. */
  function LineRun(s: string, from: nat): (n: nat)
    requires from <= |s|
    ensures from + n <= |s|
    ensures forall i :: from <= i < from + n ==> !IsLineTerminator(s[i])
    ensures from + n < |s| ==> IsLineTerminator(s[from + n])
    decreases |s| - from
  {
    if from < |s| && !IsLineTerminator(s[from]) then 1 + LineRun(s, from + 1) else 0
  }

  /**
   * `/([^=]+)=(.+)/` searched from `start`. The key group runs from the
   * start of a stretch without `=` to the `=` that ends it; the match fails
   * there when the stretch is empty or no value character follows the `=`,
   * and the search resumes after that `=`.
   */
  function DirectMatch(t: string, start: nat): (m: Option<Assignment>)
    requires start <= |t|
    ensures m.Some? ==> '=' !in m.value.key && |m.value.key| >= 1 && |m.value.value| >= 1
    decreases |t| - start
  {
    var e := IndexOfFrom(t, '=', start);
    if e == |t| then None
    else if e > start && e + 1 < |t| && !IsLineTerminator(t[e + 1]) then
      Some(Assignment(t[start..e], t[e + 1..e + 1 + LineRun(t, e + 1)]))
    else DirectMatch(t, e + 1)
  }

  /**
   * `/export\s+([^=]+)=(.+)/` tried at position `i`. The greedy `\s+` takes
   * the whole white-space run, and gives back one character only when the
   * run is followed directly by `=`.
   */
  function ExportMatchAt(t: string, i: nat): (m: Option<Assignment>)
    requires i <= |t|
    ensures m.Some? ==> '=' !in m.value.key && |m.value.key| >= 1 && |m.value.value| >= 1
  {
    if !(i + 6 <= |t| && t[i..i + 6] == "export") then None
    else
      var w := SpaceRun(t, i + 6);
      var k := i + 6 + w;
      var e := IndexOfFrom(t, '=', k);
      if w == 0 || e == |t| || !(e + 1 < |t| && !IsLineTerminator(t[e + 1])) then None
      else
        var value := t[e + 1..e + 1 + LineRun(t, e + 1)];
        if e > k then Some(Assignment(t[k..e], value))
        else if w >= 2 then Some(Assignment(t[e - 1..e], value))
        else None
  }

  /** The leftmost match of the export pattern at or after `i`. */
  function ExportSearch(t: string, i: nat): (m: Option<Assignment>)
    requires i <= |t|
    ensures m.Some? ==> '=' !in m.value.key && |m.value.key| >= 1
    decreases |t| - i
  {
    var here := ExportMatchAt(t, i);
    if here.Some? || i == |t| then here else ExportSearch(t, i + 1)
  }

  // -----------------------------------------------------------------------
  // One line
  // -----------------------------------------------------------------------

  /** `slice(1, -1)` on a value wrapped in matching quotes; a lone quote becomes empty. */
  function StripQuotes(v: string): (r: string)
    ensures |v| >= 2 && v[0] == v[|v| - 1] && (v[0] == '"' || v[0] == '\'') ==> r == v[1..|v| - 1]
    ensures !(|v| >= 1 && v[0] == v[|v| - 1] && (v[0] == '"' || v[0] == '\'')) ==> r == v
    ensures v == "\"" || v == "'" ==> r == ""
  {
    if (StartsWith(v, "\"") && EndsWith(v, "\"")) || (StartsWith(v, "'") && EndsWith(v, "'")) then
      if |v| >= 2 then v[1..|v| - 1] else ""
    else v
  }

  /** The value stored for `v`: trimmed, then unquoted. */
  function CleanValue(v: string): string {
    StripQuotes(Trim(v))
  }

  /** The environment variables the parser acts on. */
  datatype Key = AccessKeyId | SecretAccessKey | SessionToken | Region | DefaultRegion

  function KeyName(k: Key): string {
    match k
    case AccessKeyId => "AWS_ACCESS_KEY_ID"
    case SecretAccessKey => "AWS_SECRET_ACCESS_KEY"
    case SessionToken => "AWS_SESSION_TOKEN"
    case Region => "AWS_REGION"
    case DefaultRegion => "AWS_DEFAULT_REGION"
  }

  /** The `case` labels of the switch: which variable a trimmed key names, if any. */
  function KeyOf(s: string): (k: Option<Key>)
    ensures k.Some? ==> KeyName(k.value) == s
  {
    if s == "AWS_ACCESS_KEY_ID" then Some(AccessKeyId)
    else if s == "AWS_SECRET_ACCESS_KEY" then Some(SecretAccessKey)
    else if s == "AWS_SESSION_TOKEN" then Some(SessionToken)
    else if s == "AWS_REGION" then Some(Region)
    else if s == "AWS_DEFAULT_REGION" then Some(DefaultRegion)
    else None
  }

  /** Every variable name is read back as that variable. */
  lemma KeyOfKeyName(k: Key)
    ensures KeyOf(KeyName(k)) == Some(k)
  {
  }

  /** Every variable name starts with `A`, ends in a letter and holds no `=`, so trimming keeps it. */
  lemma KeyNameFacts(k: Key)
    ensures KeyOf(KeyName(k)) == Some(k)
    ensures |KeyName(k)| >= 1 && KeyName(k)[0] == 'A' && '=' !in KeyName(k)
    ensures !IsSpace(KeyName(k)[|KeyName(k)| - 1])
    ensures Trim(KeyName(k)) == KeyName(k)
  {
    KeyOfKeyName(k);
    KeyNameShape(k);
    var n := KeyName(k);
    assert !IsSpace(n[0]) && !IsSpace(n[|n| - 1]);
  }

  lemma KeyNameShape(k: Key)
    ensures |KeyName(k)| >= 10 && KeyName(k)[0] == 'A' && '=' !in KeyName(k)
    ensures 'A' <= KeyName(k)[|KeyName(k)| - 1] <= 'Z'
  {
    match k
    case AccessKeyId =>
    case SecretAccessKey =>
    case SessionToken =>
    case Region =>
    case DefaultRegion =>
  }

  predicate IsRecognisedKey(s: string) {
    KeyOf(s).Some?
  }

  /**
   * One arm of the switch. `AWS_REGION` always sets the region;
   * `AWS_DEFAULT_REGION` sets it only while it is absent or empty.
   */
  function Set(c: Credentials, k: Key, v: string): Credentials {
    match k
    case AccessKeyId => c.(accessKeyId := Some(v))
    case SecretAccessKey => c.(secretAccessKey := Some(v))
    case SessionToken => c.(sessionToken := Some(v))
    case Region => c.(region := Some(v))
    case DefaultRegion => if c.region.None? || c.region.value == "" then c.(region := Some(v)) else c
  }

  /** The `switch` on the trimmed key with the cleaned value; any other key changes nothing. */
  function Assign(c: Credentials, a: Assignment): (r: Credentials)
    ensures !IsRecognisedKey(Trim(a.key)) ==> r == c
  {
    match KeyOf(Trim(a.key))
    case None => c
    case Some(k) => Set(c, k, CleanValue(a.value))
  }

  /** What one match contributes: nothing when the pattern did not match. */
  function AssignMatch(c: Credentials, m: Option<Assignment>): Credentials {
    match m
    case None => c
    case Some(a) => Assign(c, a)
  }

  /**
   * One pass of the loop body: the line is trimmed; a line starting with
   * `export ` goes through the export pattern, and then any line with `=`
   * that does not start with `#` goes through the direct pattern as well.
   */
  function ApplyLine(c: Credentials, line: string): Credentials {
    var t := Trim(line);
    var afterExport := if StartsWith(t, "export ") then AssignMatch(c, ExportSearch(t, 0)) else c;
    if '=' in t && !StartsWith(t, "#") then AssignMatch(afterExport, DirectMatch(t, 0)) else afterExport
  }

  /** The loop over all lines, first to last. */
  function ApplyLines(c: Credentials, lines: seq<string>): Credentials
    decreases |lines|
  {
    if lines == [] then c else ApplyLine(ApplyLines(c, lines[..|lines| - 1]), lines[|lines| - 1])
  }

  /** What `parseCredentials(text)` returns. */
  function Parsed(text: string): Credentials {
    ApplyLines(NoCredentials, Split(text, '\n'))
  }

  /** `parseCredentials`: the line loop, updating the partial profile as it goes. */
  method ParseCredentials(text: string) returns (c: Credentials)
    ensures c == Parsed(text)
  {
    var lines := Split(text, '\n');
    c := NoCredentials;
    var i := 0;
    while i < |lines|
      invariant 0 <= i <= |lines|
      invariant c == ApplyLines(NoCredentials, lines[..i])
    {
      assert lines[..i + 1][..i] == lines[..i];
      c := ApplyLine(c, lines[i]);
      i := i + 1;
    }
    assert lines[..i] == lines;
  }

  /** The hook's text box; `reset` empties it. */
  class CredentialTextBox {
    var credentialText: string

    constructor ()
      ensures credentialText == ""
    {
      credentialText := "";
    }

    method SetCredentialText(text: string)
      modifies this
      ensures credentialText == text
    {
      credentialText := text;
    }

    method Reset()
      modifies this
      ensures credentialText == ""
    {
      credentialText := "";
    }
  }

  // -----------------------------------------------------------------------
  // Properties of the parser
  // -----------------------------------------------------------------------

  /** A comment line never contributes. */
  lemma CommentLineIgnored(c: Credentials, line: string)
    requires StartsWith(Trim(line), "#")
    ensures ApplyLine(c, line) == c
  {
    var t := Trim(line);
    assert t[0] == '#';
    assert !StartsWith(t, "export ") by {
      if |t| >= 7 { assert t[..7][0] == '#'; }
    }
  }

  /** A line without `=` never contributes. */
  lemma LineWithoutAssignmentIgnored(c: Credentials, line: string)
    requires '=' !in line
    ensures ApplyLine(c, line) == c
  {
    var t := Trim(line);
    assert t == line[|line| - |TrimStart(line)|..][..|t|];
    if StartsWith(t, "export ") {
      ExportSearchNeedsEquals(t, 0);
    }
  }

  lemma {:induction false} ExportSearchNeedsEquals(t: string, i: nat)
    requires i <= |t| && '=' !in t
    ensures ExportSearch(t, i).None?
    decreases |t| - i
  {
    if i < |t| {
      ExportSearchNeedsEquals(t, i + 1);
    }
  }

  /** In `p + rest`, the first `c` from `from` on is the one that starts `rest` when the rest of `p` has none. */
  lemma IndexOfFromConcat(p: string, rest: string, c: char, from: nat)
    requires from <= |p| && c !in p[from..]
    requires |rest| > 0 && rest[0] == c
    ensures IndexOfFrom(p + rest, c, from) == |p|
  {
    var s := p + rest;
    assert s[|p|] == c;
    forall i | from <= i < |p|
      ensures s[i] != c
    {
      assert s[i] == p[from..][i - from];
    }
  }

  /** `.+` started where a value without line terminators begins reaches its end. */
  lemma LineRunOfSuffix(p: string, v: string)
    requires forall i :: 0 <= i < |v| ==> !IsLineTerminator(v[i])
    ensures LineRun(p + v, |p|) == |v|
    decreases |v|
  {
    if |v| > 0 {
      assert (p + v)[|p|] == v[0];
      assert p + v == (p + [v[0]]) + v[1..];
      LineRunOfSuffix(p + [v[0]], v[1..]);
    }
  }

  /** The plain pattern matches from the start when the first `=` has a key before it and a value character after it. */
  lemma DirectMatchAtFirstEquals(t: string, e: nat)
    requires 0 < e && e + 1 < |t| && IndexOfFrom(t, '=', 0) == e && !IsLineTerminator(t[e + 1])
    ensures DirectMatch(t, 0) == Some(Assignment(t[0..e], t[e + 1..e + 1 + LineRun(t, e + 1)]))
  {
  }

  /** The export pattern matches at the first position when one space follows `export` and a key and a value surround the next `=`. */
  lemma ExportMatchAtStart(t: string, e: nat)
    requires 7 < e && e + 1 < |t| && t[0..6] == "export" && SpaceRun(t, 6) == 1
    requires IndexOfFrom(t, '=', 7) == e && !IsLineTerminator(t[e + 1])
    ensures ExportSearch(t, 0) == Some(Assignment(t[7..e], t[e + 1..e + 1 + LineRun(t, e + 1)]))
  {
    assert ExportMatchAt(t, 0) == Some(Assignment(t[7..e], t[e + 1..e + 1 + LineRun(t, e + 1)]));
  }

  /** Where the pieces of `p + "=" + v` lie, for a `p` without `=` after `from` and a value without line terminators. */
  lemma AssignmentPieces(p: string, v: string, from: nat)
    requires from <= |p| && '=' !in p[from..]
    requires |v| >= 1 && forall i :: 0 <= i < |v| ==> !IsLineTerminator(v[i])
    ensures IndexOfFrom(p + "=" + v, '=', from) == |p|
    ensures LineRun(p + "=" + v, |p| + 1) == |v|
    ensures (p + "=" + v)[from..|p|] == p[from..]
    ensures (p + "=" + v)[|p| + 1..|p + "=" + v|] == v
    ensures (p + "=" + v)[|p| + 1] == v[0]
  {
    var t := p + "=" + v;
    assert t == p + ("=" + v);
    IndexOfFromConcat(p, "=" + v, '=', from);
    assert t == (p + "=") + v;
    LineRunOfSuffix(p + "=", v);
    AssignmentSlices(p, v, from);
  }

  lemma AssignmentSlices(p: string, v: string, from: nat)
    requires from <= |p| && |v| >= 1
    ensures (p + "=" + v)[from..|p|] == p[from..]
    ensures (p + "=" + v)[|p| + 1..|p + "=" + v|] == v
    ensures (p + "=" + v)[|p| + 1] == v[0]
  {
    var t := (p + "=") + v;
    assert t[|p| + 1..] == v;
    assert t[..|p|] == p;
  }

  /** The plain pattern reads `p + "=" + v` as key `p` and value `v`. */
  lemma DirectMatchOfAssignment(p: string, v: string)
    requires |p| >= 1 && '=' !in p
    requires |v| >= 1 && forall i :: 0 <= i < |v| ==> !IsLineTerminator(v[i])
    ensures DirectMatch(p + "=" + v, 0) == Some(Assignment(p, v))
  {
    assert p[0..] == p;
    AssignmentPieces(p, v, 0);
    DirectMatchOfPieces(p + "=" + v, |p|, p, v);
  }

  /** The plain pattern read off a line whose pieces are known. */
  lemma DirectMatchOfPieces(t: string, e: nat, k: string, v: string)
    requires 0 < e && e + 1 + |v| == |t| && |v| >= 1
    requires IndexOfFrom(t, '=', 0) == e && LineRun(t, e + 1) == |v|
    requires t[0..e] == k && t[e + 1..|t|] == v && t[e + 1] == v[0] && !IsLineTerminator(v[0])
    ensures DirectMatch(t, 0) == Some(Assignment(k, v))
  {
    DirectMatchAtFirstEquals(t, e);
  }

  /** `export K=V`, for a key that does not start with white space, meets the export pattern at its first position. */
  lemma ExportMatchOfAssignment(k: string, v: string)
    requires |k| >= 1 && '=' !in k && !IsSpace(k[0])
    requires |v| >= 1 && forall i :: 0 <= i < |v| ==> !IsLineTerminator(v[i])
    ensures ExportSearch("export " + k + "=" + v, 0) == Some(Assignment(k, v))
  {
    var head := "export " + k;
    assert head[7..] == k;
    AssignmentPieces(head, v, 7);
    ExportHead(k, "=" + v);
    assert head + "=" + v == "export " + k + ("=" + v);
    ExportMatchOfPieces(head + "=" + v, |head|, k, v);
  }

  /** The export pattern read off a line whose pieces are known. */
  lemma ExportMatchOfPieces(t: string, e: nat, k: string, v: string)
    requires 7 < e && e + 1 + |v| == |t| && |v| >= 1
    requires t[0..6] == "export" && SpaceRun(t, 6) == 1
    requires IndexOfFrom(t, '=', 7) == e && LineRun(t, e + 1) == |v|
    requires t[7..e] == k && t[e + 1..|t|] == v && t[e + 1] == v[0] && !IsLineTerminator(v[0])
    ensures ExportSearch(t, 0) == Some(Assignment(k, v))
  {
    ExportMatchAtStart(t, e);
  }

  /** A line `export ` followed by a key that does not start with white space: one space after the keyword. */
  lemma ExportHead(k: string, rest: string)
    requires |k| >= 1 && !IsSpace(k[0])
    ensures var t := "export " + k + rest; t[0..6] == "export" && SpaceRun(t, 6) == 1
  {
    var t := "export " + k + rest;
    assert t[6] == ' ' && t[7] == k[0];
    assert t[0..6] == "export";
  }

  /** The prefixed key the plain pattern reads from an `export` line is never one the parser acts on. */
  lemma ExportPrefixedKeyIgnored(k: string)
    requires |k| >= 1 && !IsSpace(k[|k| - 1])
    ensures Trim("export " + k) == "export " + k
    ensures !IsRecognisedKey("export " + k)
  {
    var p := "export " + k;
    assert p[0] == 'e' && p[|p| - 1] == k[|k| - 1];
    if KeyOf(p).Some? {
      KeyNameFacts(KeyOf(p).value);
    }
  }

  /** A trimmed line outside the export branch is read by the plain pattern alone. */
  lemma ApplyPlainLine(c: Credentials, t: string, a: Assignment)
    requires Trim(t) == t && !StartsWith(t, "export ") && !StartsWith(t, "#") && '=' in t
    requires DirectMatch(t, 0) == Some(a)
    ensures ApplyLine(c, t) == Assign(c, a)
  {
  }

  /** A trimmed `export` line is read by the export pattern and then by the plain pattern. */
  lemma ApplyExportedLine(c: Credentials, t: string, a1: Assignment, a2: Assignment)
    requires Trim(t) == t && StartsWith(t, "export ") && !StartsWith(t, "#") && '=' in t
    requires ExportSearch(t, 0) == Some(a1) && DirectMatch(t, 0) == Some(a2)
    ensures ApplyLine(c, t) == Assign(Assign(c, a1), a2)
  {
  }

  /** The shape of a plain assignment line to a recognised key. */
  lemma PlainLineShape(k: string, v: string)
    requires |k| >= 1 && k[0] == 'A'
    requires |v| >= 1 && !IsSpace(v[|v| - 1])
    ensures var t := k + "=" + v;
      Trim(t) == t && !StartsWith(t, "export ") && !StartsWith(t, "#") && '=' in t
  {
    var t := k + "=" + v;
    assert t[0] == 'A' && t[|t| - 1] == v[|v| - 1] && t[|k|] == '=';
  }

  /** The shape of an `export` assignment line. */
  lemma ExportLineShape(k: string, v: string)
    requires |v| >= 1 && !IsSpace(v[|v| - 1])
    ensures var t := "export " + k + "=" + v;
      Trim(t) == t && StartsWith(t, "export ") && !StartsWith(t, "#") && '=' in t
  {
    var t := "export " + k + "=" + v;
    assert t[0] == 'e' && t[|t| - 1] == v[|v| - 1] && t[7 + |k|] == '=';
    assert t[..7] == "export ";
  }

  /** The shape of a value the line lemmas take: one line, not blank at its end. */
  predicate IsLineValue(v: string) {
    |v| >= 1 && !IsSpace(v[|v| - 1]) && forall i :: 0 <= i < |v| ==> !IsLineTerminator(v[i])
  }

  /** A plain assignment line to a variable performs that variable's arm of the switch with the cleaned value. */
  lemma ApplyDirectLine(c: Credentials, k: Key, v: string)
    requires IsLineValue(v)
    ensures ApplyLine(c, KeyName(k) + "=" + v) == Set(c, k, CleanValue(v))
  {
    KeyNameFacts(k);
    PlainLineShape(KeyName(k), v);
    DirectMatchOfAssignment(KeyName(k), v);
    ApplyPlainLine(c, KeyName(k) + "=" + v, Assignment(KeyName(k), v));
  }

  /** An `export` assignment line performs the same arm: the export pattern reads it, and the plain pattern's reading is ignored. */
  lemma ApplyExportLine(c: Credentials, k: Key, v: string)
    requires IsLineValue(v)
    ensures ApplyLine(c, "export " + KeyName(k) + "=" + v) == Set(c, k, CleanValue(v))
  {
    KeyNameFacts(k);
    ApplyExportName(c, KeyName(k), v);
    ExportPrefixedKeyIgnored(KeyName(k));
  }

  /** An `export` line for a name that starts with `A`: the export match, then the plain match of `export K`. */
  lemma ApplyExportName(c: Credentials, name: string, v: string)
    requires |name| >= 1 && name[0] == 'A' && '=' !in name
    requires IsLineValue(v)
    ensures ApplyLine(c, "export " + name + "=" + v) == Assign(Assign(c, Assignment(name, v)), Assignment("export " + name, v))
  {
    ExportLineShape(name, v);
    ExportMatchOfAssignment(name, v);
    assert "export " + name + "=" + v == ("export " + name) + "=" + v;
    DirectMatchOfAssignment("export " + name, v);
    ApplyExportedLine(c, "export " + name + "=" + v, Assignment(name, v), Assignment("export " + name, v));
  }

  /**
   * An `export` line has the same effect as the plain assignment: the
   * plain pattern also sees the `export` line, but reads its key as
   * `export K`, which is not recognised.
   */
  lemma ExportSameAsDirect(c: Credentials, k: Key, v: string)
    requires IsLineValue(v)
    ensures ApplyLine(c, "export " + KeyName(k) + "=" + v) == ApplyLine(c, KeyName(k) + "=" + v)
  {
    ApplyExportLine(c, k, v);
    ApplyDirectLine(c, k, v);
  }

  /** An assignment to any variable but the default region sets that one field to the cleaned value, whatever it held, and nothing else. */
  lemma DirectKeySetsField(c: Credentials, k: Key, v: string)
    requires k != DefaultRegion && IsLineValue(v)
    ensures var r := ApplyLine(c, KeyName(k) + "=" + v);
      && (r.accessKeyId == if k == AccessKeyId then Some(CleanValue(v)) else c.accessKeyId)
      && (r.secretAccessKey == if k == SecretAccessKey then Some(CleanValue(v)) else c.secretAccessKey)
      && (r.sessionToken == if k == SessionToken then Some(CleanValue(v)) else c.sessionToken)
      && (r.region == if k == Region then Some(CleanValue(v)) else c.region)
  {
    ApplyDirectLine(c, k, v);
  }

  /** The loop over two lines applies the first, then the second. */
  lemma ApplyTwoLines(c: Credentials, l1: string, l2: string)
    ensures ApplyLines(c, [l1, l2]) == ApplyLine(ApplyLine(c, l1), l2)
  {
    ApplyLinesSnoc(c, [], l1);
    assert [] + [l1] == [l1];
    ApplyLinesSnoc(c, [l1], l2);
    assert [l1] + [l2] == [l1, l2];
  }

  /** The loop over one more line applies it last. */
  lemma ApplyLinesSnoc(c: Credentials, lines: seq<string>, l: string)
    ensures ApplyLines(c, lines + [l]) == ApplyLine(ApplyLines(c, lines), l)
  {
    assert (lines + [l])[..|lines|] == lines;
  }

  /** A later assignment to the same variable makes the earlier one irrelevant. */
  lemma {:induction false} LaterLineWins(c: Credentials, k: Key, v1: string, v2: string)
    requires k != DefaultRegion && IsLineValue(v1) && IsLineValue(v2)
    ensures ApplyLines(c, [KeyName(k) + "=" + v1, KeyName(k) + "=" + v2]) == ApplyLine(c, KeyName(k) + "=" + v2)
  {
    ApplyTwoLines(c, KeyName(k) + "=" + v1, KeyName(k) + "=" + v2);
    ApplyDirectLine(c, k, v1);
    ApplyDirectLine(Set(c, k, CleanValue(v1)), k, v2);
    ApplyDirectLine(c, k, v2);
  }

  /** `AWS_DEFAULT_REGION` fills the region only while it is absent or empty, and touches nothing else. */
  lemma DefaultRegionFillsOnlyUnset(c: Credentials, v: string)
    requires IsLineValue(v)
    ensures var r := ApplyLine(c, KeyName(DefaultRegion) + "=" + v);
      && r.region == (if c.region.None? || c.region.value == "" then Some(CleanValue(v)) else c.region)
      && r.accessKeyId == c.accessKeyId && r.secretAccessKey == c.secretAccessKey && r.sessionToken == c.sessionToken
  {
    ApplyDirectLine(c, DefaultRegion, v);
  }

  /** A non-empty `AWS_REGION` decides the region whether `AWS_DEFAULT_REGION` comes before it or after it. */
  lemma {:induction false} RegionTakesPrecedence(c: Credentials, r: string, d: string)
    requires IsLineValue(r) && IsLineValue(d) && CleanValue(r) != ""
    ensures ApplyLines(c, [KeyName(Region) + "=" + r, KeyName(DefaultRegion) + "=" + d]).region == Some(CleanValue(r))
    ensures ApplyLines(c, [KeyName(DefaultRegion) + "=" + d, KeyName(Region) + "=" + r]).region == Some(CleanValue(r))
  {
    var lr, ld := KeyName(Region) + "=" + r, KeyName(DefaultRegion) + "=" + d;
    ApplyTwoLines(c, lr, ld);
    ApplyTwoLines(c, ld, lr);
    ApplyDirectLine(c, Region, r);
    ApplyDirectLine(Set(c, Region, CleanValue(r)), DefaultRegion, d);
    ApplyDirectLine(c, DefaultRegion, d);
    ApplyDirectLine(Set(c, DefaultRegion, CleanValue(d)), Region, r);
  }

  /** Running the loop over two stretches of lines is running it over the first, then over the second. */
  lemma {:induction false} ApplyLinesConcat(c: Credentials, a: seq<string>, b: seq<string>)
    ensures ApplyLines(c, a + b) == ApplyLines(ApplyLines(c, a), b)
    decreases |b|
  {
    if b == [] {
      assert a + b == a;
    } else {
      assert (a + b)[..|a + b| - 1] == a + b[..|b| - 1];
      assert (a + b)[|a + b| - 1] == b[|b| - 1];
      ApplyLinesConcat(c, a, b[..|b| - 1]);
    }
  }

  /** The lines of text after a newline are parsed starting from what the text before it produced. */
  lemma {:induction false} ParsedContinues(a: string, b: string)
    ensures Parsed(a + "\n" + b) == ApplyLines(Parsed(a), Split(b, '\n'))
  {
    SplitConcat(a, b, '\n');
    ApplyLinesConcat(NoCredentials, Split(a, '\n'), Split(b, '\n'));
  }

  /** Empty text parses to a profile with no field set. */
  lemma EmptyTextParsesToNothing()
    ensures Parsed("") == NoCredentials
  {
    assert Split("", '\n') == [""];
    assert [""][..0] == [];
    assert Trim("") == "";
  }
}
