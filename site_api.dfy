/** The Flask endpoints the web site calls: `send_whatsapp_message` with its
    phone-number normalisation, `api_enviar_mensagem` and `api_notificar_admin`.
    The JSON body is a map from keys to strings; the WhatsApp send is an
    external effect, returned as the `Outgoing` message it was asked to make and
    paired with its outcome, which the caller supplies. */
module SiteApi {
  import opened Wrappers
  import opened Text

  const CountryCode := "55"
  const AdminNumber := "5541992272854"

  /** Python's `str.isdigit`, on ASCII and Latin-1: the ten decimal digits and
      the superscripts one to three. */
  predicate IsDigit(c: char)
  {
    '0' <= c <= '9' || c == '\U{B2}' || c == '\U{B3}' || c == '\U{B9}'
  }

  predicate AllDigits(s: string)
  {
    forall i :: 0 <= i < |s| ==> IsDigit(s[i])
  }

  /** `''.join(filter(str.isdigit, s))`: the digits of `s`, in order. */
  function Digits(s: string): (d: string)
    ensures AllDigits(d)
    ensures |d| <= |s|
  {
    if s == [] then [] else (if IsDigit(s[0]) then [s[0]] else []) + Digits(s[1..])
  }

  /** Filtering a string made only of digits keeps it whole. */
  lemma {:induction false} DigitsOfDigits(s: string)
    requires AllDigits(s)
    ensures Digits(s) == s
  {
    if s != [] {
      DigitsOfDigits(s[1..]);
      assert [s[0]] + s[1..] == s;
    }
  }

  /** Filtering distributes over concatenation. */
  lemma {:induction false} DigitsAppend(a: string, b: string)
    ensures Digits(a + b) == Digits(a) + Digits(b)
  {
    if a == [] {
      assert a + b == b;
    } else {
      var head := if IsDigit(a[0]) then [a[0]] else [];
      assert (a + b)[0] == a[0] && (a + b)[1..] == a[1..] + b;
      assert Digits(a + b) == head + Digits(a[1..] + b);
      DigitsAppend(a[1..], b);
      assert Digits(a) == head + Digits(a[1..]);
      assert head + (Digits(a[1..]) + Digits(b)) == head + Digits(a[1..]) + Digits(b);
    }
  }

  /** The number `send_whatsapp_message` sends to: the digits of `telefone`,
      preceded by the country code unless they already start with it. */
  function NormalizePhone(telefone: string): (r: string)
    ensures StartsWith(r, CountryCode)
    ensures AllDigits(r)
    ensures var d := Digits(telefone);
      |d| <= |r| && r[|r| - |d|..] == d
    ensures var d := Digits(telefone);
      |r| == if StartsWith(d, CountryCode) then |d| else |d| + 2
  {
    var digits := Digits(telefone);
    if StartsWith(digits, CountryCode) then digits else CountryCode + digits
  }

  /** Normalising a normalised number changes nothing. */
  lemma NormalizePhoneIdempotent(telefone: string)
    ensures NormalizePhone(NormalizePhone(telefone)) == NormalizePhone(telefone)
  {
    DigitsOfDigits(NormalizePhone(telefone));
  }

  /** Punctuation, spaces and letters do not matter: two inputs with the same
      digits in the same order are sent to the same number, and a separator
      added anywhere is ignored. */
  lemma NormalizePhoneIgnoresSeparators(a: string, sep: string, b: string)
    requires forall i :: 0 <= i < |sep| ==> !IsDigit(sep[i])
    ensures NormalizePhone(a + sep + b) == NormalizePhone(a + b)
  {
    assert Digits(a + sep + b) == Digits(a + b) by {
      DigitsAppend(a + sep, b);
      DigitsAppend(a, sep);
      DigitsAppend(a, b);
      NoDigits(sep);
      assert Digits(a) + [] == Digits(a);
    }
  }

  lemma {:induction false} NoDigits(s: string)
    requires forall i :: 0 <= i < |s| ==> !IsDigit(s[i])
    ensures Digits(s) == []
  {
    if s != [] {
      NoDigits(s[1..]);
    }
  }

  /** A message handed to `wa.send_message`. */
  datatype Outgoing = Outgoing(to: string, text: string)

  /** How the external `wa.send_message` call ended: it returned, or it raised
      an exception with the given text. */
  datatype Delivery = Delivered | Raised(error: string)

  /** The dictionary `send_whatsapp_message` returns. */
  datatype SendResult = SendResult(status: string, para: string)

  /** One call of `send_whatsapp_message`: the message it sends and what it
      returns, or the exception it re-raises. */
  datatype Attempt = Attempt(sent: Outgoing, result: Result<SendResult, string>)

  function SendWhatsappMessage(telefone: string, mensagem: string, delivery: Delivery): (a: Attempt)
    ensures a.sent.to == NormalizePhone(telefone) && a.sent.text == mensagem
    ensures a.result.Success? <==> delivery.Delivered?
    ensures a.result.Success? ==> a.result.value == SendResult("enviado", a.sent.to)
    ensures a.result.Failure? ==> a.result.error == delivery.error
  {
    var para := NormalizePhone(telefone);
    var sent := Outgoing(para, mensagem);
    match delivery
    case Delivered => Attempt(sent, Success(SendResult("enviado", para)))
    case Raised(e) => Attempt(sent, Failure(e))
  }

  /** The JSON body of a response. */
  datatype Json =
    | Enviada(mensagem: string, detalhes: SendResult)   // {"sucesso": true, "mensagem": ..., "detalhes": ...}
    | Sucesso                                           // {"sucesso": true}
    | Erro(erro: string)                                // {"erro": ...}

  /** An HTTP response and the WhatsApp message, if any, sent while producing it. */
  datatype Response = Response(code: int, body: Json, sent: Option<Outgoing>)

  const MissingFields := "Telefone e mensagem são obrigatórios"
  const SentMessage := "Mensagem enviada com sucesso"

  /** `data.get(key, default)`. */
  function Get(data: map<string, string>, key: string, default: string): string
  {
    if key in data then data[key] else default
  }

  /** `api_enviar_mensagem`. */
  function EnviarMensagem(data: map<string, string>, delivery: Delivery): (r: Response)
    ensures var telefone, mensagem := Get(data, "telefone", ""), Get(data, "mensagem", "");
      && (r.code == 400 <==> telefone == "" || mensagem == "")
      && (r.code == 400 ==> r.sent == None && r.body == Erro(MissingFields))
      && (r.code != 400 ==> r.sent == Some(Outgoing(NormalizePhone(telefone), mensagem)))
      && (r.code == 200 <==> r.code != 400 && delivery.Delivered?)
      && (r.code == 200 ==> r.body == Enviada(SentMessage, SendResult("enviado", NormalizePhone(telefone))))
      && (r.code != 200 && r.code != 400 ==> r.code == 500 && r.body == Erro(delivery.error))
  {
    var telefone := Get(data, "telefone", "");
    var mensagem := Get(data, "mensagem", "");
    if telefone == "" || mensagem == "" then
      Response(400, Erro(MissingFields), None)
    else
      var attempt := SendWhatsappMessage(telefone, mensagem, delivery);
      match attempt.result
      case Success(resultado) => Response(200, Enviada(SentMessage, resultado), Some(attempt.sent))
      case Failure(e) => Response(500, Erro(e), Some(attempt.sent))
  }

  const NotificationHeader := "\U{1F514} *Nova mensagem do site*"

  /** The text the admin receives, built by the same successive appends as
      the handler: a header and a blank line, then one line per field. */
  function NotificationText(nome: string, email: string, origem: string, mensagem: string): string
  {
    var texto := NotificationHeader + "\n\n";
    var texto1 := texto + ("*Nome:* " + nome + "\n");
    var texto2 := texto1 + ("*Email:* " + email + "\n");
    var texto3 := texto2 + ("*Origem:* " + origem + "\n");
    texto3 + ("*Mensagem:* " + mensagem)
  }

  /** Appending a line-free piece and a line break to a text ending in an
      empty line fills that line and opens a new one. */
  lemma AppendLine(x: string, prefix: seq<string>, line: string)
    requires '\n' !in line && Lines(x) == prefix + [""]
    ensures Lines(x + (line + "\n")) == prefix + [line, ""]
  {
    var y := x + line;
    assert x + (line + "\n") == y + "\n";
    var ls := prefix + [""];
    LinesAppendText(x, line);
    assert ls[..|ls| - 1] == prefix && ls[|ls| - 1] + line == line;
    assert Lines(y) == prefix + [line];
    LinesAppendBreak(y);
    assert (prefix + [line]) + [""] == prefix + [line, ""];
  }

  /** The appends of `NotificationText` over an arbitrary header line, with
      the last line made of a label `p` and a value `m`. */
  function Layout(h: string, l1: string, l2: string, l3: string, p: string, m: string): string
  {
    (((h + "\n\n") + (l1 + "\n")) + (l2 + "\n")) + (l3 + "\n") + (p + m)
  }

  /** The layout up to and including the label, when nothing in it holds a
      line break: the header, a blank line, three field lines and the label. */
  lemma LayoutHead(h: string, l1: string, l2: string, l3: string, p: string)
    requires '\n' !in h && '\n' !in l1 && '\n' !in l2 && '\n' !in l3 && '\n' !in p
    ensures Lines((((h + "\n\n") + (l1 + "\n")) + (l2 + "\n")) + (l3 + "\n") + p) == [h, "", l1, l2, l3, p]
  {
    var texto := h + "\n\n";
    var texto1 := texto + (l1 + "\n");
    var texto2 := texto1 + (l2 + "\n");
    var texto3 := texto2 + (l3 + "\n");
    assert texto == (h + "\n") + "\n";
    LinesOfLine(h);
    LinesAppendBreak(h);
    LinesAppendBreak(h + "\n");
    assert Lines(texto) == [h, ""] + [""];
    AppendLine(texto, [h, ""], l1);
    assert Lines(texto1) == [h, "", l1] + [""];
    AppendLine(texto1, [h, "", l1], l2);
    assert Lines(texto2) == [h, "", l1, l2] + [""];
    AppendLine(texto2, [h, "", l1, l2], l3);
    var ls := [h, "", l1, l2, l3] + [""];
    assert Lines(texto3) == ls;
    LinesAppendText(texto3, p);
    assert ls[..|ls| - 1] == [h, "", l1, l2, l3] && ls[|ls| - 1] + p == p;
  }

  /** Whatever the header, the first three field lines and the label, as long
      as none holds a line break, the layout reads back as those lines, then
      the label joined to the first line of `m`, then the other lines of `m`. */
  lemma LayoutLines(h: string, l1: string, l2: string, l3: string, p: string, m: string)
    requires '\n' !in h && '\n' !in l1 && '\n' !in l2 && '\n' !in l3 && '\n' !in p
    ensures Lines(Layout(h, l1, l2, l3, p, m)) == [h, "", l1, l2, l3, p + Lines(m)[0]] + Lines(m)[1..]
  {
    var head := (((h + "\n\n") + (l1 + "\n")) + (l2 + "\n")) + (l3 + "\n") + p;
    var front := [h, "", l1, l2, l3];
    var ls := front + [p];
    LayoutHead(h, l1, l2, l3, p);
    assert Lines(head) == ls;
    var lm := Lines(m);
    assert lm == [lm[0]] + lm[1..];
    LinesConcat(head, m, lm[0], lm[1..]);
    assert ls[..|ls| - 1] == front;
    assert Layout(h, l1, l2, l3, p, m) == head + m;
  }

  /** Read back line by line, the notification is the header, a blank line,
      the Nome, Email and Origem lines, and then the lines of `mensagem`, the
      first of them after its label, as long as `nome`, `email` and `origem`
      hold no line break. */
  lemma NotificationLines(nome: string, email: string, origem: string, mensagem: string)
    requires '\n' !in nome && '\n' !in email && '\n' !in origem
    ensures var lm := Lines(mensagem);
      Lines(NotificationText(nome, email, origem, mensagem))
        == [NotificationHeader, "", "*Nome:* " + nome, "*Email:* " + email,
            "*Origem:* " + origem, "*Mensagem:* " + lm[0]] + lm[1..]
  {
    assert '\n' !in NotificationHeader;
    LayoutLines(NotificationHeader, "*Nome:* " + nome, "*Email:* " + email,
                "*Origem:* " + origem, "*Mensagem:* ", mensagem);
  }

  /** With a one-line `mensagem` as well, the notification is exactly six lines. */
  lemma NotificationSixLines(nome: string, email: string, origem: string, mensagem: string)
    requires '\n' !in nome && '\n' !in email && '\n' !in origem && '\n' !in mensagem
    ensures Lines(NotificationText(nome, email, origem, mensagem))
         == [NotificationHeader, "", "*Nome:* " + nome, "*Email:* " + email,
             "*Origem:* " + origem, "*Mensagem:* " + mensagem]
  {
    NotificationLines(nome, email, origem, mensagem);
    LinesOfLine(mensagem);
  }

  /** The defaults `api_notificar_admin` gives a missing `nome` and `origem`.
      They are functions rather than constants so that proofs about the
      notification text do not unfold these literals character by character. */
  function DefaultName(): string { "Visitante" }
  function DefaultOrigin(): string { "formulário do site" }

  /** `api_notificar_admin`: the notification always goes to the admin number,
      unnormalised, with `nome` defaulting to "Visitante" and `origem` to
      "formulário do site"; the response is 200 unless the send raised. */
  function NotificarAdmin(data: map<string, string>, delivery: Delivery): (r: Response)
    ensures r.sent == Some(Outgoing(AdminNumber, NotificationText(
      Get(data, "nome", DefaultName()), Get(data, "email", ""),
      Get(data, "origem", DefaultOrigin()), Get(data, "mensagem", ""))))
    ensures r.code == 200 <==> delivery.Delivered?
    ensures r.code == 200 ==> r.body == Sucesso
    ensures r.code != 200 ==> r.code == 500 && r.body == Erro(delivery.error)
  {
    var nome := Get(data, "nome", DefaultName());
    var email := Get(data, "email", "");
    var mensagem := Get(data, "mensagem", "");
    var origem := Get(data, "origem", DefaultOrigin());
    var texto := NotificationText(nome, email, origem, mensagem);
    var sent := Some(Outgoing(AdminNumber, texto));
    match delivery
    case Delivered => Response(200, Sucesso, sent)
    case Raised(e) => Response(500, Erro(e), sent)
  }

  /** A form without a name or an origin still notifies the admin, under the
      default name "Visitante" and the default origin "formulário do site". */
  lemma NotificationDefaults(data: map<string, string>, delivery: Delivery)
    requires "nome" !in data && "origem" !in data
    requires '\n' !in Get(data, "email", "")
    ensures var lines := Lines(NotificarAdmin(data, delivery).sent.value.text);
      |lines| >= 6 && lines[2] == "*Nome:* Visitante" && lines[4] == "*Origem:* formulário do site"
    ensures '\n' !in Get(data, "mensagem", "") ==>
      |Lines(NotificarAdmin(data, delivery).sent.value.text)| == 6
  {
    var email, mensagem := Get(data, "email", ""), Get(data, "mensagem", "");
    var nome, origem := DefaultName(), DefaultOrigin();
    var lines := Lines(NotificarAdmin(data, delivery).sent.value.text);
    var lm := Lines(mensagem);
    assert lines == [NotificationHeader, "", "*Nome:* " + nome, "*Email:* " + email,
                     "*Origem:* " + origem, "*Mensagem:* " + lm[0]] + lm[1..] by {
      assert Get(data, "nome", DefaultName()) == nome && Get(data, "origem", DefaultOrigin()) == origem;
      assert NotificarAdmin(data, delivery).sent.value.text == NotificationText(nome, email, origem, mensagem);
      NotificationLines(nome, email, origem, mensagem);
    }
    if '\n' !in mensagem {
      LinesOfLine(mensagem);
    }
    assert "*Nome:* " + nome == "*Nome:* Visitante";
    assert "*Origem:* " + origem == "*Origem:* formulário do site";
  }
}
