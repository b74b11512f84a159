/** The email gateway (src/lib/emailService.ts): `{{name}}` placeholder
    substitution over a template's declared variables, the three
    transactional emails, and the Brevo HTTP call reduced to the boolean it
    yields for each possible outcome. */
module EmailService {
  import opened Wrappers
  import opened Strings
  import opened Types
  import opened MockData

  /** What the Brevo call runs into: no API key configured; a 2xx response
      whose JSON body parses; a non-2xx response whose text is read; or a
      throw from `fetch`, `response.json()` or `response.text()`, which the
      `catch` turns into `false` (a 2xx response with an empty or non-JSON
      body is therefore `Threw`). */
  datatype Delivery = NoKey | Ok | NotOk | Threw

  datatype Contact = Contact(name: string, email: string)

  /** The JSON body posted to the provider. */
  datatype BrevoEmail = BrevoEmail(sender: Contact, to: seq<Contact>, subject: string, htmlContent: string)

  /** The outcome of one `send*Email` call: it returned a boolean, with the
      email it handed to the provider (`None` when it gave up before
      building one), or it threw before reaching the provider. */
  datatype SendResult = Returned(ok: bool, email: Option<BrevoEmail>) | Raised

  const Sender: Contact := Contact("Trendies Morocco", "contact@trendiesmaroc.com")

  const DashboardUrl: string := "https://trendies-omega.vercel.app/admin/dashboard"

  /** `sendBrevoEmail`: simulated success without a key, `response.ok`
      otherwise, and `false` when the request throws. */
  function SendBrevoEmail(email: BrevoEmail, d: Delivery): (ok: bool)
    ensures ok <==> d == NoKey || d == Ok
  {
    match d
    case NoKey => true
    case Ok => true
    case NotOk => false
    case Threw => false
  }

  // ---------------------------------------------------------------------
  // Placeholder substitution

  function Placeholder(v: string): (p: string)
    ensures |p| == |v| + 4
  {
    "{{" + v + "}}"
  }

  /** `variables[v] || `[${v}]``: a missing or empty value renders as `[v]`. */
  function ValueFor(values: map<string, string>, v: string): (r: string)
    ensures |r| > 0
  {
    if v in values && values[v] != "" then values[v] else "[" + v + "]"
  }

  /** `s.replace(new RegExp(pat, 'g'), rep)` for a literal pattern: scan from
      the left, replace each match, and resume after it. */
  function ReplaceAll(s: string, pat: string, rep: string): string
    requires |pat| > 0
    decreases |s|
  {
    if |s| < |pat| then s
    else if s[..|pat|] == pat then rep + ReplaceAll(s[|pat|..], pat, rep)
    else [s[0]] + ReplaceAll(s[1..], pat, rep)
  }

  /** Text without the pattern is left as it is. */
  lemma {:induction false} ReplaceAllAbsent(s: string, pat: string, rep: string)
    requires |pat| > 0
    requires !Contains(s, pat)
    ensures ReplaceAll(s, pat, rep) == s
    decreases |s|
  {
    if |s| >= |pat| {
      assert !OccursAt(s, pat, 0);
      if Contains(s[1..], pat) {
        var i :| 0 <= i <= |s[1..]| && OccursAt(s[1..], pat, i);
        assert s[i + 1..i + 1 + |pat|] == s[1..][i..i + |pat|];
        assert OccursAt(s, pat, i + 1);
      }
      ReplaceAllAbsent(s[1..], pat, rep);
    }
  }

  /** The leftmost match is replaced and the scan resumes after it: when
      `pat` starts nowhere inside `a`, the text `a + pat + b` becomes
      `a + rep` followed by the substitution on `b`. */
  lemma {:induction false} ReplaceAllLeftmost(a: string, b: string, pat: string, rep: string)
    requires |pat| > 0
    requires forall i :: 0 <= i < |a| ==> !OccursAt(a + pat + b, pat, i)
    ensures ReplaceAll(a + pat + b, pat, rep) == a + rep + ReplaceAll(b, pat, rep)
    decreases |a|
  {
    var s := a + pat + b;
    if a == [] {
      assert s == pat + b;
      assert s[..|pat|] == pat;
      assert s[|pat|..] == b;
    } else {
      assert !OccursAt(s, pat, 0);
      assert s[..|pat|] != pat;
      assert s[1..] == a[1..] + pat + b;
      forall i | 0 <= i < |a[1..]|
        ensures !OccursAt(a[1..] + pat + b, pat, i)
      {
        assert !OccursAt(s, pat, i + 1);
        assert s[i + 1..i + 1 + |pat|] == (a[1..] + pat + b)[i..i + |pat|];
      }
      ReplaceAllLeftmost(a[1..], b, pat, rep);
      assert [s[0]] + (a[1..] + rep + ReplaceAll(b, pat, rep)) == a + rep + ReplaceAll(b, pat, rep);
    }
  }

  /** `renderTemplate` / `renderSubject` as a function: the declared
      variables are substituted one after another, in declaration order. */
  function Render(content: string, decl: seq<string>, values: map<string, string>): string
    decreases |decl|
  {
    if decl == [] then content
    else Render(ReplaceAll(content, Placeholder(decl[0]), ValueFor(values, decl[0])), decl[1..], values)
  }

  /** Substitution order: declaring one more variable substitutes it last,
      into the text the earlier ones produced. */
  lemma {:induction false} RenderAppend(content: string, decl: seq<string>, w: string, values: map<string, string>)
    ensures Render(content, decl + [w], values) ==
            ReplaceAll(Render(content, decl, values), Placeholder(w), ValueFor(values, w))
    decreases |decl|
  {
    if decl == [] {
      assert [] + [w] == [w];
    } else {
      assert (decl + [w])[1..] == decl[1..] + [w];
      RenderAppend(ReplaceAll(content, Placeholder(decl[0]), ValueFor(values, decl[0])), decl[1..], w, values);
    }
  }

  /** Text without any `{{` comes out unchanged, whatever is declared. */
  lemma {:induction false} RenderNoPlaceholders(content: string, decl: seq<string>, values: map<string, string>)
    requires !Contains(content, "{{")
    ensures Render(content, decl, values) == content
    decreases |decl|
  {
    if decl != [] {
      var p := Placeholder(decl[0]);
      if Contains(content, p) {
        var i :| 0 <= i <= |content| && OccursAt(content, p, i);
        assert content[i..i + 2] == p[..2];
        assert OccursAt(content, "{{", i);
      }
      ReplaceAllAbsent(content, p, ValueFor(values, decl[0]));
      RenderNoPlaceholders(content, decl[1..], values);
    }
  }

  /** A lone placeholder of a variable with a missing or empty value renders
      as the variable's name in brackets. */
  lemma RenderMissingValue(v: string, values: map<string, string>)
    requires v !in values || values[v] == ""
    ensures Render(Placeholder(v), [v], values) == "[" + v + "]"
  {
    ReplaceAllLeftmost("", "", Placeholder(v), ValueFor(values, v));
    assert "" + Placeholder(v) + "" == Placeholder(v);
  }

  /** Chained substitution: when the value of `v` is the placeholder of a
      variable `w` declared after it, the result is the value of `w`. */
  lemma RenderChained(v: string, w: string, values: map<string, string>)
    requires v in values && values[v] == Placeholder(w)
    requires w in values && values[w] != ""
    ensures Render(Placeholder(v), [v, w], values) == values[w]
  {
    var pv, pw := Placeholder(v), Placeholder(w);
    ReplaceAllLeftmost("", "", pv, pw);
    assert "" + pv + "" == pv;
    assert ReplaceAll(pv, pv, pw) == pw;
    ReplaceAllLeftmost("", "", pw, values[w]);
    assert "" + pw + "" == pw;
    assert [v, w][1..] == [w];
    assert ValueFor(values, v) == pw && ValueFor(values, w) == values[w];
    assert Render(pv, [v, w], values) == Render(pw, [w], values);
    assert Render(pw, [w], values) == Render(values[w], [], values);
  }

  predicate NoBraces(v: string) {
    forall i :: 0 <= i < |v| ==> v[i] != '{' && v[i] != '}'
  }

  /** Brace-free names have distinct placeholders that never occur inside
      one another. */
  lemma PlaceholderNotInside(u: string, v: string)
    requires NoBraces(u) && NoBraces(v) && u != v
    ensures !Contains(Placeholder(u), Placeholder(v))
  {
    forall i | 0 <= i <= |Placeholder(u)|
      ensures !OccursAt(Placeholder(u), Placeholder(v), i)
    {
      PlaceholderNotAt(u, v, i);
    }
  }

  /** At each position some character tells the two placeholders apart:
      past position 0 the second '{' of the inner one meets a name
      character or a '}'; at position 0 the names differ or, if one is
      shorter, its closing '}' meets a name character. */
  lemma PlaceholderNotAt(u: string, v: string, i: int)
    requires NoBraces(u) && NoBraces(v) && u != v
    ensures !OccursAt(Placeholder(u), Placeholder(v), i)
  {
    var pu, pv := Placeholder(u), Placeholder(v);
    assert forall k :: 0 <= k < |u| ==> pu[k + 2] == u[k];
    assert forall k :: 0 <= k < |v| ==> pv[k + 2] == v[k];
    assert pu[|u| + 2] == '}' && pu[|u| + 3] == '}' && pv[1] == '{' && pv[|v| + 2] == '}';
    if 0 < i && i + |pv| <= |pu| {
      assert pu[i..i + |pv|][1] != pv[1];
    } else if i == 0 && |pv| <= |pu| {
      if |u| == |v| {
        var k :| 0 <= k < |u| && u[k] != v[k];
        assert pu[..|pv|][k + 2] != pv[k + 2];
      } else {
        assert pu[..|pv|][|v| + 2] != pv[|v| + 2];
      }
    }
  }

  /** The placeholder of an undeclared (brace-free) name is left untouched. */
  lemma {:induction false} RenderUndeclared(u: string, decl: seq<string>, values: map<string, string>)
    requires NoBraces(u) && u !in decl
    requires forall k :: 0 <= k < |decl| ==> NoBraces(decl[k])
    ensures Render(Placeholder(u), decl, values) == Placeholder(u)
    decreases |decl|
  {
    if decl != [] {
      PlaceholderNotInside(u, decl[0]);
      ReplaceAllAbsent(Placeholder(u), Placeholder(decl[0]), ValueFor(values, decl[0]));
      RenderUndeclared(u, decl[1..], values);
    }
  }

  /** `renderTemplate`: the `forEach` loop over the declared variables. */
  method RenderTemplate(template: EmailTemplate, values: map<string, string>) returns (rendered: string)
    ensures rendered == Render(template.htmlContent, template.variables, values)
  {
    rendered := template.htmlContent;
    var i := 0;
    while i < |template.variables|
      invariant 0 <= i <= |template.variables|
      invariant Render(rendered, template.variables[i..], values) ==
                Render(template.htmlContent, template.variables, values)
    {
      var v := template.variables[i];
      assert template.variables[i..][1..] == template.variables[i + 1..];
      rendered := ReplaceAll(rendered, Placeholder(v), ValueFor(values, v));
      i := i + 1;
    }
  }

  /** `renderSubject`: the same substitution, on the subject line. */
  method RenderSubject(template: EmailTemplate, values: map<string, string>) returns (rendered: string)
    ensures rendered == Render(template.subject, template.variables, values)
  {
    rendered := template.subject;
    var i := 0;
    while i < |template.variables|
      invariant 0 <= i <= |template.variables|
      invariant Render(rendered, template.variables[i..], values) ==
                Render(template.subject, template.variables, values)
    {
      var v := template.variables[i];
      assert template.variables[i..][1..] == template.variables[i + 1..];
      rendered := ReplaceAll(rendered, Placeholder(v), ValueFor(values, v));
      i := i + 1;
    }
  }

  // ---------------------------------------------------------------------
  // The three transactional emails

  /** `buyerEmail.split('@')[0]`: the text before the first '@', or all of
      it when there is none. */
  function BuyerName(email: string): (r: string)
    ensures |r| <= |email| && r == email[..|r|]
    ensures forall j :: 0 <= j < |r| ==> r[j] != '@'
    ensures |r| < |email| ==> email[|r|] == '@'
  {
    email[..IndexOfChar(email, '@')]
  }

  /** A field of a JavaScript object literal whose value may be
      `undefined`, which a lookup then treats as missing. */
  function WithField(m: map<string, string>, k: string, v: Option<string>): (r: map<string, string>)
    ensures r.Keys == if v.Some? then m.Keys + {k} else m.Keys
    ensures forall j :: j in m && j != k ==> r[j] == m[j]
    ensures v.Some? ==> r[k] == v.value
  {
    if v.Some? then m[k := v.value] else m
  }

  function SellerVariables(seller: User): map<string, string> {
    map["sellerName" := seller.name,
        "badgeLevel" := if seller.badgeLevel.Some? then BadgeName(seller.badgeLevel.value) else "Standard",
        "dashboardUrl" := DashboardUrl]
  }

  /** Builds the email specified by a template and its variables. */
  function Compose(template: EmailTemplate, to: Contact, values: map<string, string>): BrevoEmail {
    BrevoEmail(Sender, [to], Render(template.subject, template.variables, values),
               Render(template.htmlContent, template.variables, values))
  }

  /** `sendSellerApprovalEmail`. */
  function SendSellerApprovalEmail(st: StoreState, sellerId: Option<string>, d: Delivery): (r: SendResult)
  {
    match FindUser(st.users, sellerId)
    case None => Returned(false, None)
    case Some(seller) =>
      match FindTemplate(st.templates, "seller-approval")
      case None => Returned(false, None)
      case Some(t) =>
        var email := Compose(t, Contact(seller.name, seller.email), SellerVariables(seller));
        Returned(SendBrevoEmail(email, d), Some(email))
  }

  /** Without the seller or the template nothing is sent and the result is
      false; otherwise the seller receives the rendered template, with the
      badge reported as 'Standard' when the seller has none, and the result
      is what the provider call yields. */
  lemma SellerApprovalEmailBehaviour(st: StoreState, sellerId: Option<string>, d: Delivery)
    ensures var r := SendSellerApprovalEmail(st, sellerId, d);
      && r.Returned?
      && ((FindUser(st.users, sellerId).None? || FindTemplate(st.templates, "seller-approval").None?)
            <==> r.email.None?)
      && (r.email.None? ==> !r.ok)
      && (r.email.Some? ==>
            var seller := FindUser(st.users, sellerId).value;
            var t := FindTemplate(st.templates, "seller-approval").value;
            && sellerId == Some(seller.id)
            && r.email.value.to == [Contact(seller.name, seller.email)]
            && r.email.value.sender == Sender
            && r.email.value.subject == Render(t.subject, t.variables, SellerVariables(seller))
            && r.email.value.htmlContent == Render(t.htmlContent, t.variables, SellerVariables(seller))
            && SellerVariables(seller)["badgeLevel"] ==
                 (if seller.badgeLevel.None? then "Standard" else BadgeName(seller.badgeLevel.value))
            && (r.ok <==> d == NoKey || d == Ok))
  {
  }

  function OrderVariables(buyerEmail: string, productName: Option<string>, orderId: Option<string>,
                          amount: string, sellerName: Option<string>): map<string, string> {
    var m := map["buyerName" := BuyerName(buyerEmail), "amount" := amount];
    WithField(WithField(WithField(m, "productName", productName), "orderId", orderId), "sellerName", sellerName)
  }

  /** `sendOrderConfirmationEmail`; `undefined.split` and
      `undefined.toString` throw. */
  function SendOrderConfirmationEmail(st: StoreState, orderId: Option<string>, buyerEmail: Option<string>,
                                      productName: Option<string>, sellerName: Option<string>,
                                      amount: Option<string>, d: Delivery): SendResult
  {
    match FindTemplate(st.templates, "order-confirmation")
    case None => Returned(false, None)
    case Some(t) =>
      if buyerEmail.None? || amount.None? then Raised
      else
        var values := OrderVariables(buyerEmail.value, productName, orderId, amount.value, sellerName);
        var email := Compose(t, Contact(BuyerName(buyerEmail.value), buyerEmail.value), values);
        Returned(SendBrevoEmail(email, d), Some(email))
  }

  function ReturnVariables(buyerEmail: string, productName: Option<string>, returnId: Option<string>): map<string, string> {
    var m := map["buyerName" := BuyerName(buyerEmail)];
    WithField(WithField(m, "productName", productName), "returnId", returnId)
  }

  /** `sendReturnAcceptedEmail`. */
  function SendReturnAcceptedEmail(st: StoreState, buyerEmail: Option<string>, productName: Option<string>,
                                   returnId: Option<string>, d: Delivery): SendResult
  {
    match FindTemplate(st.templates, "return-accepted")
    case None => Returned(false, None)
    case Some(t) =>
      if buyerEmail.None? then Raised
      else
        var values := ReturnVariables(buyerEmail.value, productName, returnId);
        var email := Compose(t, Contact(BuyerName(buyerEmail.value), buyerEmail.value), values);
        Returned(SendBrevoEmail(email, d), Some(email))
  }

  /** The order confirmation: an absent template gives false without an
      email; with the template, a missing buyer address or amount throws;
      otherwise the buyer's address receives the rendered template under
      the name before its '@', that same name is the `buyerName` variable,
      the other fields are the variables exactly when they are defined, and
      the result is what the provider call yields. */
  lemma OrderEmailRecipient(st: StoreState, orderId: Option<string>, buyerEmail: Option<string>,
                            productName: Option<string>, sellerName: Option<string>,
                            amount: Option<string>, d: Delivery)
    ensures var r := SendOrderConfirmationEmail(st, orderId, buyerEmail, productName, sellerName, amount, d);
      && (FindTemplate(st.templates, "order-confirmation").None? ==> r == Returned(false, None))
      && (FindTemplate(st.templates, "order-confirmation").Some? && (buyerEmail.None? || amount.None?) ==> r == Raised)
      && (FindTemplate(st.templates, "order-confirmation").Some? && buyerEmail.Some? && amount.Some? ==>
            var t := FindTemplate(st.templates, "order-confirmation").value;
            var be := buyerEmail.value;
            var values := OrderVariables(be, productName, orderId, amount.value, sellerName);
            && r.Returned? && r.email.Some?
            && r.email.value.sender == Sender
            && r.email.value.to == [Contact(BuyerName(be), be)]
            && r.email.value.subject == Render(t.subject, t.variables, values)
            && r.email.value.htmlContent == Render(t.htmlContent, t.variables, values)
            && values["buyerName"] == BuyerName(be)
            && values["amount"] == amount.value
            && ("productName" in values <==> productName.Some?)
            && ("orderId" in values <==> orderId.Some?)
            && ("sellerName" in values <==> sellerName.Some?)
            && (productName.Some? ==> values["productName"] == productName.value)
            && (orderId.Some? ==> values["orderId"] == orderId.value)
            && (sellerName.Some? ==> values["sellerName"] == sellerName.value)
            && (r.ok <==> d == NoKey || d == Ok))
  {
  }

  /** The same three outcomes for the return-accepted email, which throws
      only without a buyer address. */
  lemma ReturnEmailRecipient(st: StoreState, buyerEmail: Option<string>, productName: Option<string>,
                             returnId: Option<string>, d: Delivery)
    ensures var r := SendReturnAcceptedEmail(st, buyerEmail, productName, returnId, d);
      && (FindTemplate(st.templates, "return-accepted").None? ==> r == Returned(false, None))
      && (FindTemplate(st.templates, "return-accepted").Some? && buyerEmail.None? ==> r == Raised)
      && (FindTemplate(st.templates, "return-accepted").Some? && buyerEmail.Some? ==>
            var t := FindTemplate(st.templates, "return-accepted").value;
            var be := buyerEmail.value;
            var values := ReturnVariables(be, productName, returnId);
            && r.Returned? && r.email.Some?
            && r.email.value.sender == Sender
            && r.email.value.to == [Contact(BuyerName(be), be)]
            && r.email.value.subject == Render(t.subject, t.variables, values)
            && r.email.value.htmlContent == Render(t.htmlContent, t.variables, values)
            && values["buyerName"] == BuyerName(be)
            && ("productName" in values <==> productName.Some?)
            && ("returnId" in values <==> returnId.Some?)
            && (productName.Some? ==> values["productName"] == productName.value)
            && (returnId.Some? ==> values["returnId"] == returnId.value)
            && (r.ok <==> d == NoKey || d == Ok))
  {
  }
}
