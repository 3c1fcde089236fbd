/**
 * The `plus4uToken` template tag as it appears inside an environment value,
 * recognised by the migration's PLUGIN_RE
 *
 *   ^({% plus4uToken [^,]*, [^,]*, [^,]*, [^,]*(?:, ([^,]+))?) %}$
 *
 * (migrate-insomnia-from-auth-to-header.js line 6), and the rewrite that the
 * environment pass applies to a matching value.
 *
 * Instead of general regular-expression semantics the model has a recogniser
 * `ParseArgs` for exactly this grammar and its inverse `Render`: a tag is the
 * literal opening `{% plus4uToken `, four comma-free arguments joined by `, `,
 * an optional fifth non-empty comma-free argument, and the closing ` %}`.
 */
module TemplateTag {
  import opened Wrappers

  const TagOpen: string := "{% plus4uToken "
  const TagClose: string := " %}"
  const ArgSeparator: string := ", "

  /** The OIDC server argument the migration inserts when the fifth argument is absent. */
  const DefaultOidcServerArg: string := "'https://oidc.plus4u.net/uu-oidcg01-main/0-0'"

  predicate CommaFree(s: string) {
    ',' !in s
  }

  predicate AllCommaFree(args: seq<string>) {
    forall i :: 0 <= i < |args| ==> CommaFree(args[i])
  }

  /** `fields.join(sep)` */
  function Join(fields: seq<string>, sep: string): string
  {
    if |fields| == 0 then ""
    else if |fields| == 1 then fields[0]
    else fields[0] + sep + Join(fields[1..], sep)
  }

  /** The tag with the given arguments, as it is written in an environment value. */
  function Render(args: seq<string>): string
  {
    TagOpen + Join(args, ArgSeparator) + TagClose
  }

  /** The argument lists PLUGIN_RE accepts: four comma-free fields, and optionally a fifth non-empty one. */
  predicate WellFormedArgs(args: seq<string>) {
    && (|args| == 4 || |args| == 5)
    && AllCommaFree(args)
    && (|args| == 5 ==> args[4] != "")
  }

  /** `s.split(",")` */
  function SplitAtCommas(s: string): (pieces: seq<string>)
    ensures |pieces| >= 1
    ensures AllCommaFree(pieces)
    ensures Join(pieces, ",") == s
    decreases |s|
  {
    if s == "" then [""]
    else
      var rest := SplitAtCommas(s[1..]);
      if s[0] == ',' then
        assert s == "" + "," + Join(rest, ",");
        [""] + rest
      else
        assert s == [s[0]] + Join(rest, ",");
        [[s[0]] + rest[0]] + rest[1..]
  }

  /** The pieces after the first one lose the blank that follows their comma. */
  function DropLeadingBlanks(pieces: seq<string>): (args: seq<string>)
    requires forall i :: 0 <= i < |pieces| ==> |pieces[i]| >= 1
    ensures |args| == |pieces|
    ensures forall i :: 0 <= i < |pieces| ==> args[i] == pieces[i][1..]
  {
    if pieces == [] then [] else [pieces[0][1..]] + DropLeadingBlanks(pieces[1..])
  }

  /** The arguments of a value that PLUGIN_RE matches, or None when it does not match. */
  function ParseArgs(s: string): (r: Option<seq<string>>)
    ensures r.Some? ==> |s| >= |TagOpen| + |TagClose| && |r.value| >= 4
  {
    if |s| < |TagOpen| + |TagClose| || s[..|TagOpen|] != TagOpen || s[|s| - |TagClose|..] != TagClose then None
    else
      var pieces := SplitAtCommas(s[|TagOpen|..|s| - |TagClose|]);
      if (|pieces| == 4 || |pieces| == 5) && forall i :: 1 <= i < |pieces| ==> |pieces[i]| >= 1 && pieces[i][0] == ' ' then
        var args := [pieces[0]] + DropLeadingBlanks(pieces[1..]);
        if |args| == 5 && args[4] == "" then None else Some(args)
      else None
  }

  /** The two capture groups of a PLUGIN_RE match: `match[1]` and `match[2]` (absent when undefined). */
  datatype TagMatch = TagMatch(group1: string, group2: Option<string>)

  /** `value.match(PLUGIN_RE)` */
  function MatchPluginTag(s: string): (m: Option<TagMatch>)
  {
    match ParseArgs(s)
    case None => None
    case Some(args) => Some(TagMatch(s[..|s| - |TagClose|], if |args| == 5 then Some(args[4]) else None))
  }

  /** The environment pass applied to one string value (lines 23-30). */
  function MigrateValue(v: string): string
  {
    match MatchPluginTag(v)
    case None => v
    case Some(m) =>
      // `if (match[2])`: an undefined group and the empty string are both falsy
      if m.group2.Some? && m.group2.value != "" then m.group1 + ", true %}"
      // ", 'https://oidc.plus4u.net/uu-oidcg01-main/0-0', true %}"
      else m.group1 + ArgSeparator + DefaultOidcServerArg + ", true %}"
  }

  // ---------------------------------------------------------------------------
  // Splitting and joining

  lemma {:induction false} SplitCommaFree(a: string)
    requires CommaFree(a)
    ensures SplitAtCommas(a) == [a]
    decreases |a|
  {
    if a != "" {
      SplitCommaFree(a[1..]);
    }
  }

  lemma {:induction false} SplitAfterCommaFree(a: string, rest: string)
    requires CommaFree(a)
    ensures SplitAtCommas(a + "," + rest) == [a] + SplitAtCommas(rest)
    decreases |a|
  {
    var s := a + "," + rest;
    if a == "" {
      assert s[1..] == rest;
    } else {
      assert s[1..] == a[1..] + "," + rest;
      SplitAfterCommaFree(a[1..], rest);
      assert [s[0]] + a[1..] == a;
    }
  }

  lemma {:induction false} JoinSnoc(fields: seq<string>, x: string, sep: string)
    requires |fields| >= 1
    ensures Join(fields + [x], sep) == Join(fields, sep) + sep + x
    decreases |fields|
  {
    if |fields| > 1 {
      assert (fields + [x])[1..] == fields[1..] + [x];
      JoinSnoc(fields[1..], x, sep);
    }
  }

  /** Splitting a `, `-joined list of comma-free fields gives the fields, each but the first with its blank. */
  lemma {:induction false} SplitJoined(args: seq<string>)
    requires |args| >= 1 && AllCommaFree(args)
    ensures var pieces := SplitAtCommas(Join(args, ArgSeparator));
      && |pieces| == |args|
      && pieces[0] == args[0]
      && forall i :: 1 <= i < |args| ==> pieces[i] == " " + args[i]
    decreases |args|
  {
    if |args| == 1 {
      SplitCommaFree(args[0]);
    } else {
      var tail := Join(args[1..], ArgSeparator);
      assert Join(args, ArgSeparator) == args[0] + "," + (" " + tail);
      SplitAfterCommaFree(args[0], " " + tail);
      SplitJoined(args[1..]);
      var t := SplitAtCommas(tail);
      assert (" " + tail)[1..] == tail;
      assert SplitAtCommas(" " + tail) == [[' '] + t[0]] + t[1..];
    }
  }

  /** Joining with `,` pieces that each begin with a blank is joining the rest of them with `, `. */
  lemma {:induction false} JoinBlanked(pieces: seq<string>, args: seq<string>)
    requires |pieces| == |args| >= 1
    requires forall i :: 0 <= i < |pieces| ==> pieces[i] == " " + args[i]
    ensures Join(pieces, ",") == " " + Join(args, ArgSeparator)
    decreases |pieces|
  {
    if |pieces| > 1 {
      JoinBlanked(pieces[1..], args[1..]);
    }
  }

  // ---------------------------------------------------------------------------
  // The recogniser and its inverse

  /** Every value PLUGIN_RE matches is a rendered tag with well-formed arguments. */
  lemma ParseSound(s: string)
    requires ParseArgs(s).Some?
    ensures WellFormedArgs(ParseArgs(s).value)
    ensures Render(ParseArgs(s).value) == s
  {
    var body := s[|TagOpen|..|s| - |TagClose|];
    var pieces := SplitAtCommas(body);
    var args := ParseArgs(s).value;
    assert args == [pieces[0]] + DropLeadingBlanks(pieces[1..]);
    forall i | 0 <= i < |args| ensures CommaFree(args[i]) {
      if i > 0 {
        assert args[i] == pieces[i][1..];
        assert CommaFree(pieces[i]);
      }
    }
    JoinBlanked(pieces[1..], args[1..]);
    assert Join(pieces, ",") == pieces[0] + "," + Join(pieces[1..], ",");
    assert Join(args, ArgSeparator) == args[0] + ArgSeparator + Join(args[1..], ArgSeparator);
    assert s == s[..|TagOpen|] + body + s[|s| - |TagClose|..];
  }

  /** A rendered tag with comma-free arguments is matched exactly when those arguments are well formed, and gives them back. */
  lemma ParseRender(args: seq<string>)
    requires |args| >= 1 && AllCommaFree(args)
    ensures ParseArgs(Render(args)) == if WellFormedArgs(args) then Some(args) else None
  {
    var s := Render(args);
    assert s[..|TagOpen|] == TagOpen;
    assert s[|s| - |TagClose|..] == TagClose;
    assert s[|TagOpen|..|s| - |TagClose|] == Join(args, ArgSeparator);
    SplitJoined(args);
    var pieces := SplitAtCommas(Join(args, ArgSeparator));
    if |pieces| == 4 || |pieces| == 5 {
      assert forall i :: 1 <= i < |pieces| ==> |pieces[i]| >= 1 && pieces[i][0] == ' ';
      var parsed := [pieces[0]] + DropLeadingBlanks(pieces[1..]);
      assert forall i :: 1 <= i < |parsed| ==> parsed[i] == pieces[i][1..] == args[i];
      assert parsed == args;
    }
  }

  /** The match groups of a rendered tag: group 1 is everything before ` %}`, group 2 the fifth argument. */
  lemma MatchRendered(args: seq<string>)
    requires WellFormedArgs(args)
    ensures MatchPluginTag(Render(args)) == Some(TagMatch(TagOpen + Join(args, ArgSeparator), if |args| == 5 then Some(args[4]) else None))
  {
    ParseRender(args);
    var s := Render(args);
    assert s[..|s| - |TagClose|] == TagOpen + Join(args, ArgSeparator);
  }

  // ---------------------------------------------------------------------------
  // The value rewrite

  /** A tag with five arguments gains `true` as a sixth one. */
  lemma MigrateFiveArgs(args: seq<string>)
    requires WellFormedArgs(args) && |args| == 5
    ensures MigrateValue(Render(args)) == Render(args + ["true"])
  {
    MatchRendered(args);
    JoinSnoc(args, "true", ArgSeparator);
  }

  /** A tag with four arguments gains the default OIDC server and then `true`. */
  lemma MigrateFourArgs(args: seq<string>)
    requires WellFormedArgs(args) && |args| == 4
    ensures MigrateValue(Render(args)) == Render(args + [DefaultOidcServerArg, "true"])
  {
    MatchRendered(args);
    JoinSnoc(args, DefaultOidcServerArg, ArgSeparator);
    JoinSnoc(args + [DefaultOidcServerArg], "true", ArgSeparator);
    assert args + [DefaultOidcServerArg] + ["true"] == args + [DefaultOidcServerArg, "true"];
  }

  /** A value is changed by the rewrite exactly when PLUGIN_RE matches it. */
  lemma MigrateChangesOnlyMatches(v: string)
    ensures MigrateValue(v) != v <==> MatchPluginTag(v).Some?
  {
    if MatchPluginTag(v).Some? {
      assert |MigrateValue(v)| > |v|;
    }
  }

  /** The arguments of a matched tag after the rewrite: `true` appended, preceded by the default server when there were four. */
  function MigratedArgs(args: seq<string>): seq<string>
  {
    if |args| == 5 then args + ["true"] else args + [DefaultOidcServerArg, "true"]
  }

  /** Every value PLUGIN_RE matches is rewritten to the tag with the migrated arguments. */
  lemma MigrateMatched(v: string)
    requires ParseArgs(v).Some?
    ensures MigrateValue(v) == Render(MigratedArgs(ParseArgs(v).value))
  {
    var args := ParseArgs(v).value;
    ParseSound(v);
    if |args| == 5 {
      MigrateFiveArgs(args);
    } else {
      MigrateFourArgs(args);
    }
  }

  /** The migrated arguments are six comma-free ones, which PLUGIN_RE no longer accepts. */
  lemma MigratedArgsRejected(args: seq<string>)
    requires WellFormedArgs(args)
    ensures ParseArgs(Render(MigratedArgs(args))) == None
  {
    var six := MigratedArgs(args);
    assert CommaFree("true") && CommaFree(DefaultOidcServerArg);
    assert |six| == 6;
    assert AllCommaFree(six);
    ParseRender(six);
  }

  /** A migrated value is no longer matched, so running the migration again leaves it alone. */
  lemma MigrateValueIdempotent(v: string)
    ensures MigrateValue(MigrateValue(v)) == MigrateValue(v)
  {
    if ParseArgs(v).Some? {
      var args := ParseArgs(v).value;
      ParseSound(v);
      MigrateMatched(v);
      MigratedArgsRejected(args);
      var w := Render(MigratedArgs(args));
      assert MatchPluginTag(w) == None;
    }
  }
}
