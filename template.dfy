/** The template tags of the session page (src/FrontendTemplate.php): each
    tag is compiled into a piece of PHP code, built here as a string. The
    engine's filters and operator names are given by the caller. */
module FrontendTemplate {
  import opened Php

  /** The attribute names the tags read; any other attribute is only seen
      by the engine's filters. */
  datatype AttrName = Operator | Registration | Authenticate | Signout | TrueAttr | Other(name: string)

  /** A tag's attributes: `isset($attr[$n])` is `n in attrs`. */
  type Attrs = map<AttrName, string>

  /** The template engine: `sprintf(getFilters($attr), $res)` and
      `Tpl::getOperator($op)`. */
  datatype Engine = Engine(applyFilters: (Attrs, string) -> string, getOperator: string -> string)

  /** `My::class`, the plugin's class name as the compiled code names it. */
  const MyClass: string := "Dotclear\\Plugin\\FrontendSession\\My"

  /** The expression reading the `active_registration` setting. */
  const ActiveRegistration: string := MyClass + "::settings()->get('active_registration')"

  /** `(bool) $a ? '' : '!'` for an attribute string: '' and '0' are false. */
  function Sign(a: string): (r: string)
    ensures r == "" <==> !Empty(a)
    ensures r != "" ==> r == "!"
  {
    if !Empty(a) then "" else "!"
  }

  /** `filter($attr, $res)`: the filtered expression echoed. */
  function Filter(eng: Engine, attrs: Attrs, res: string): string {
    "<?php echo " + eng.applyFilters(attrs, res) + "; ?>"
  }

  /** The guard of `registration`: the setting, negated for a false attribute. */
  function RegistrationCond(a: string): string {
    Sign(a) + ActiveRegistration
  }

  /** The guard of `authenticate`: `userID() == ''` negated, or
      `userID() !== ''` negated for a false attribute. */
  function AuthenticateCond(a: string): string {
    "!(App::auth()->userID() " + Sign(a) + "== '')"
  }

  /** The conditions of `FrontendSessionIf`, registration first. */
  function Conditions(attrs: Attrs): (conds: seq<string>)
    ensures |conds| == (if Registration in attrs then 1 else 0) + (if Authenticate in attrs then 1 else 0)
    ensures Registration in attrs ==> conds[0] == RegistrationCond(attrs[Registration])
    ensures Authenticate in attrs ==> conds[|conds| - 1] == AuthenticateCond(attrs[Authenticate])
  {
    (if Registration in attrs then [RegistrationCond(attrs[Registration])] else [])
    + (if Authenticate in attrs then [AuthenticateCond(attrs[Authenticate])] else [])
  }

  /** The operator joining the conditions: `&&` unless the tag names one. */
  function OperatorOf(eng: Engine, attrs: Attrs): (op: string)
    ensures Operator !in attrs ==> op == "&&"
    ensures Operator in attrs ==> op == eng.getOperator(attrs[Operator])
  {
    if Operator in attrs then eng.getOperator(attrs[Operator]) else "&&"
  }

  /** `<?php if(cond) : ?>content<?php endif; ?>` */
  function Guarded(cond: string, content: string): string {
    "<?php if(" + cond + ") : ?>" + content + "<?php endif; ?>"
  }

  /** `FrontendSessionIf($attr, $content)` */
  function SessionIf(eng: Engine, attrs: Attrs, content: string): string {
    var conds := Conditions(attrs);
    if conds == [] then content
    else Guarded(Implode(" " + OperatorOf(eng, attrs) + " ", conds), content)
  }

  /** What the tag compiles to, case by case: the content alone without
      `registration` and `authenticate`; otherwise the content under one
      guard, the registration condition first, joined by the operator. */
  lemma SessionIfShape(eng: Engine, attrs: Attrs, content: string)
    ensures Registration !in attrs && Authenticate !in attrs ==> SessionIf(eng, attrs, content) == content
    ensures Registration in attrs && Authenticate !in attrs ==>
      SessionIf(eng, attrs, content) == Guarded(RegistrationCond(attrs[Registration]), content)
    ensures Registration !in attrs && Authenticate in attrs ==>
      SessionIf(eng, attrs, content) == Guarded(AuthenticateCond(attrs[Authenticate]), content)
    ensures Registration in attrs && Authenticate in attrs ==>
      SessionIf(eng, attrs, content)
      == Guarded(RegistrationCond(attrs[Registration]) + " " + OperatorOf(eng, attrs) + " "
                 + AuthenticateCond(attrs[Authenticate]), content)
  {
    var conds := Conditions(attrs);
    if |conds| == 1 {
      assert Implode(" " + OperatorOf(eng, attrs) + " ", conds) == conds[0];
    } else if |conds| == 2 {
      var glue := " " + OperatorOf(eng, attrs) + " ";
      assert conds[1..] == [conds[1]];
      assert Implode(glue, conds) == conds[0] + glue + conds[1];
    }
  }

  /** The value of a compiled condition on a request where the
      `active_registration` setting is `reg` and `App::auth()->userID()` is
      `user`, for the four conditions the tags produce (`None` for any other
      code). */
  function Eval(code: string, reg: bool, user: string): Option<bool> {
    if code == ActiveRegistration then Some(reg)
    else if code == "!" + ActiveRegistration then Some(!reg)
    else if code == "!(App::auth()->userID() == '')" then Some(user != "")
    else if code == "!(App::auth()->userID() !== '')" then Some(user == "")
    else None
  }

  /** A true `registration` shows the content when registration is open, a
      false one when it is closed. */
  lemma RegistrationCondMeans(a: string, reg: bool, user: string)
    ensures Eval(RegistrationCond(a), reg, user) == Some(reg == !Empty(a))
  {
    if Empty(a) {
      assert RegistrationCond(a)[0] == '!' != ActiveRegistration[0];
    }
  }

  /** A true `authenticate` shows the content to a signed in user, a false
      one to an anonymous visitor. */
  lemma AuthenticateCondMeans(a: string, reg: bool, user: string)
    ensures Eval(AuthenticateCond(a), reg, user) == Some((user != "") == !Empty(a))
  {
    var c := AuthenticateCond(a);
    assert c[0] == '!' && c[1] == '(' && ActiveRegistration[0] == 'D';
    if Empty(a) {
      assert c[24] == '!' && "!(App::auth()->userID() == '')"[24] == '=';
    }
  }

  /** `FrontendSessionIsAuth($attr, $content)`: the content under
      `userID()`, negated when the `true` attribute is false. */
  function IsAuth(attrs: Attrs, content: string): string {
    var test := "App::auth()->userID()";
    Guarded(if TrueAttr in attrs then Sign(attrs[TrueAttr]) + "(" + test + ")" else test, content)
  }

  /** The test is negated exactly when `true` is given and false. */
  lemma IsAuthNegated(attrs: Attrs, content: string)
    ensures IsAuth(attrs, content)[9] == '!' <==> TrueAttr in attrs && Empty(attrs[TrueAttr])
  {
    var r := IsAuth(attrs, content);
    assert "<?php if(" == r[..9];
  }

  /** The session page's URL expression. */
  const SessionUrlExpr: string := "App::blog()->url().App::url()->getURLFor(" + MyClass + "::id())"

  const SignoutSuffix: string := ".'/signout'"

  /** `FrontendSessionUrl($attr)`: the page's URL, with `/signout` when
      the `signout` attribute is not empty. */
  function Url(eng: Engine, attrs: Attrs): string {
    Filter(eng, attrs, UrlExpr(attrs))
  }

  function UrlExpr(attrs: Attrs): string {
    SessionUrlExpr + (if Signout in attrs && !Empty(attrs[Signout]) then SignoutSuffix else "")
  }

  /** The expression ends with the sign-out path exactly when the attribute
      asks for it. */
  lemma UrlSignout(attrs: Attrs)
    ensures var e := UrlExpr(attrs);
      (|e| >= |SignoutSuffix| && e[|e| - |SignoutSuffix|..] == SignoutSuffix)
      <==> Signout in attrs && !Empty(attrs[Signout])
  {
    var e := UrlExpr(attrs);
    if !(Signout in attrs && !Empty(attrs[Signout])) {
      assert e == SessionUrlExpr;
      assert e[|e| - 1] == ')' && SignoutSuffix[|SignoutSuffix| - 1] == '\'';
    }
  }
}
