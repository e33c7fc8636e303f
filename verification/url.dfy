/**
 Building the request URL of a call (Region.prototype._buildUrl): the call's
 arguments after the priority are path arguments, a trailing object among
 them is the query string, and the rest fill the `%s` placeholders of the
 endpoint's URL template in order, through Node's `util.format`.
 */
module Url {
  import opened Js

  /** The arguments of `get(region, target, priority, ...pathArgs)`; a priority
      the caller left out is `Undefined`. */
  datatype Call = Call(region: string, target: string, priority: Arg, pathArgs: seq<Arg>)

  /** The URL of a request and its query-string object. */
  datatype Url = Url(url: string, qs: Arg)

  /** `_buildUrl` either builds the URL or throws the arity error, which carries
      the path arguments and the template. */
  datatype Built = Built(url: Url) | WrongArity(args: seq<Arg>, template: string)

  /** The text `util.format` puts in place of `%s` for an argument. */
  function ArgText(a: Arg): string {
    match a
    case Undefined => "undefined"
    case Null => "null"
    case Number(n) => IntToString(n)
    case Str(s) => s
    case Object(_) => "[object Object]"
  }

  function Texts(args: seq<Arg>): (t: seq<string>)
    ensures |t| == |args|
    ensures forall i :: 0 <= i < |args| ==> t[i] == ArgText(args[i])
  {
    seq(|args|, i requires 0 <= i < |args| => ArgText(args[i]))
  }

  /** The literal text of a template around its placeholders: `template.split('%s')`. */
  function Pieces(template: string): (p: seq<string>)
    ensures |p| >= 1
  {
    Split(template, "%s")
  }

  /** `template.split('%s').length - 1`: the number of placeholders. */
  function Placeholders(template: string): nat {
    |Pieces(template)| - 1
  }

  /** The pieces with exactly one filler between each two neighbours, in order. */
  function Interleave(pieces: seq<string>, fill: seq<string>): string
    requires |pieces| == |fill| + 1
  {
    if fill == [] then pieces[0] else pieces[0] + fill[0] + Interleave(pieces[1..], fill[1..])
  }

  /** What `util.format` appends when it has more arguments than placeholders. */
  function Trailing(args: seq<string>): string {
    if args == [] then [] else " " + args[0] + Trailing(args[1..])
  }

  /** `util.format` on the pieces of a template: each `%s` takes the next argument;
      placeholders left over stay literal, arguments left over are appended. */
  function FormatPieces(pieces: seq<string>, args: seq<string>): string
    requires |pieces| >= 1
  {
    if |pieces| == 1 then pieces[0] + Trailing(args)
    else if args == [] then Join(pieces, "%s")
    else pieces[0] + args[0] + FormatPieces(pieces[1..], args[1..])
  }

  /** `util.format(template, ...args)` for templates whose only specifier is `%s`. */
  function Format(template: string, args: seq<Arg>): string {
    FormatPieces(Pieces(template), Texts(args))
  }

  /** With as many arguments as placeholders, `util.format` fills them in order. */
  lemma {:induction false} FormatFillsInOrder(pieces: seq<string>, args: seq<string>)
    requires |pieces| == |args| + 1
    ensures FormatPieces(pieces, args) == Interleave(pieces, args)
  {
    if args != [] {
      FormatFillsInOrder(pieces[1..], args[1..]);
    }
  }

  /** A trailing object or null among the path arguments is the query string. */
  predicate HasQuery(pathArgs: seq<Arg>) {
    |pathArgs| > 0 && IsObject(pathArgs[|pathArgs| - 1])
  }

  /** The path arguments once a trailing query object has been popped off. */
  function PlainArgs(pathArgs: seq<Arg>): seq<Arg> {
    if HasQuery(pathArgs) then pathArgs[..|pathArgs| - 1] else pathArgs
  }

  /** `_buildUrl(prefix, template, arguments)`. */
  function BuildUrl(prefix: string, template: string, call: Call): (r: Built)
    ensures r.WrongArity? <==> Placeholders(template) != |PlainArgs(call.pathArgs)|
    ensures r.Built? ==>
      r.url.url == prefix + Interleave(Pieces(template), Texts(PlainArgs(call.pathArgs)))
    ensures r.Built? ==>
      r.url.qs == if HasQuery(call.pathArgs) then call.pathArgs[|call.pathArgs| - 1] else Object(map[])
  {
    var args := PlainArgs(call.pathArgs);
    var qs := if HasQuery(call.pathArgs) then call.pathArgs[|call.pathArgs| - 1] else Object(map[]);
    if Placeholders(template) != |args| then WrongArity(args, template)
    else
      FormatFillsInOrder(Pieces(template), Texts(args));
      Built(Url(prefix + Format(template, args), qs))
  }

  function Repeat(s: string, n: nat): (r: seq<string>)
    ensures |r| == n
    ensures forall i :: 0 <= i < n ==> r[i] == s
  {
    seq(n, _ => s)
  }

  lemma {:induction false} InterleaveSeparators(pieces: seq<string>)
    requires |pieces| >= 1
    ensures Interleave(pieces, Repeat("%s", |pieces| - 1)) == Join(pieces, "%s")
  {
    if |pieces| > 1 {
      InterleaveSeparators(pieces[1..]);
      assert Repeat("%s", |pieces| - 1)[1..] == Repeat("%s", |pieces| - 2);
    }
  }

  /** Putting `%s` back in place of every filler restores the template: the pieces
      and the placeholders account for the whole template. */
  lemma TemplateRestored(template: string)
    ensures Interleave(Pieces(template), Repeat("%s", Placeholders(template))) == template
  {
    InterleaveSeparators(Pieces(template));
    JoinSplit(template, "%s");
  }

  /** The call shape of the arity check: a template with one placeholder called
      with no path arguments fails, and with one argument yields the filled URL. */
  lemma OnePlaceholder(prefix: string, region: string, target: string, id: string)
    ensures BuildUrl(prefix, "/c/%s", Call(region, target, Undefined, [])).WrongArity?
    ensures BuildUrl(prefix, "/c/%s", Call(region, target, Number(1), [Str(id)]))
            == Built(Url(prefix + "/c/" + id, Object(map[])))
  {
    assert Split("", "%s") == [""];
    assert "%s"[2..] == "";
    assert Split("%s", "%s") == ["", ""];
    assert "/%s"[1..] == "%s" && "/%s"[..2] != "%s";
    assert ['/'] + "" == "/";
    assert Split("/%s", "%s") == ["/", ""];
    assert "c/%s"[1..] == "/%s" && "c/%s"[..2] != "%s";
    assert ['c'] + "/" == "c/";
    assert Split("c/%s", "%s") == ["c/", ""];
    assert "/c/%s"[1..] == "c/%s" && "/c/%s"[..2] != "%s";
    assert ['/'] + "c/" == "/c/";
    assert Pieces("/c/%s") == ["/c/", ""];
    var call := Call(region, target, Number(1), [Str(id)]);
    assert PlainArgs(call.pathArgs) == [Str(id)];
    assert Texts([Str(id)]) == [id];
    assert Interleave(["/c/", ""], [id]) == "/c/" + id + "";
    assert prefix + ("/c/" + id + "") == prefix + "/c/" + id;
  }
}
