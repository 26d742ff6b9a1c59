/** The Node server's reply function `processarComChatbot` and the inbound
    message handler that relays its answer back through the session. */
module Kodassauro {
  import opened Wrappers
  import opened Text

  const PriceReply := "\U{1F4B0} Nossos planos começam em R$ 99,90/mês. Quer saber mais?"
  const SiteReply := "\U{1F995} Temos sites institucionais, e-commerce, industriais e mais! Qual te interessa?"
  const ThanksReply := "\U{1F970} Por nada! Estou aqui para ajudar."
  const GreetingReply := "\U{1F995} Olá! Sou o Kodassauro, assistente da KoddaHub. Como posso ajudar?"

  predicate AsksPrice(texto: string)
  {
    Contains(Lower(texto), "preço") || Contains(Lower(texto), "valor")
  }

  predicate AsksSite(texto: string)
  {
    Contains(Lower(texto), "site") || Contains(Lower(texto), "criar")
  }

  predicate Thanks(texto: string)
  {
    Contains(Lower(texto), "obrigado")
  }

  /** `processarComChatbot`: price, then site, then thanks, else the greeting;
      never the empty string. */
  function ProcessarComChatbot(texto: string): (r: string)
    ensures r != ""
  {
    var lowerText := Lower(texto);
    if Contains(lowerText, "preço") || Contains(lowerText, "valor") then
      PriceReply
    else if Contains(lowerText, "site") || Contains(lowerText, "criar") then
      SiteReply
    else if Contains(lowerText, "obrigado") then
      ThanksReply
    else
      GreetingReply
  }

  /** The inbound-message handler: the text handed to `message.reply`, or
      `None` when nothing is sent (a falsy answer). It always replies, with
      exactly the chatbot's answer. */
  function Relay(body: string): (sent: Option<string>)
    ensures sent == Some(ProcessarComChatbot(body))
  {
    var resposta := ProcessarComChatbot(body);
    if resposta != "" then Some(resposta) else None
  }

  /** Branch priority, read off the reply: each answer is given exactly when
      its rule is the first one that matches. */
  lemma ReplyIff(texto: string)
    ensures ProcessarComChatbot(texto) == PriceReply <==> AsksPrice(texto)
    ensures ProcessarComChatbot(texto) == SiteReply <==> !AsksPrice(texto) && AsksSite(texto)
    ensures ProcessarComChatbot(texto) == ThanksReply
        <==> !AsksPrice(texto) && !AsksSite(texto) && Thanks(texto)
    ensures ProcessarComChatbot(texto) == GreetingReply
        <==> !AsksPrice(texto) && !AsksSite(texto) && !Thanks(texto)
  {
  }

  /** Case-insensitivity: a keyword typed in any mix of cases ("PREÇO",
      "Valor") at position `i` selects the price reply. */
  lemma PriceAnyCase(texto: string, k: string, i: nat)
    requires k == "preço" || k == "valor"
    requires i + |k| <= |texto| && Lower(texto[i..i + |k|]) == k
    ensures Relay(texto) == Some(PriceReply)
  {
    MentionsAt(texto, k, i);
  }

  /** The inbound message "qual o preço?" is answered with the price reply. */
  lemma PriceQuestion()
    ensures Relay("qual o preço?") == Some(PriceReply)
  {
    var t := "qual o preço?";
    assert t[7..12] == "preço";
    MentionsAt(t, "preço", 7);
  }
}
