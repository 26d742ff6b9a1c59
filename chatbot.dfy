/** The keyword reply selector of the Python bot: `process_message` picks the
    first of four rules whose keyword occurs in the lower-cased message, and
    `process_callback` answers every button press with one fixed text. */
module Chatbot {
  import opened Text

  const PriceReply := "Nossos produtos têm preços a partir de R$ 50,00."
  const ThanksReply := "Por nada! \U{1F60A}"
  const UnrecognizedOption := "Opção não reconhecida."

  /** The greeting, addressed to the user by name. */
  function GreetingReply(userName: string): string
  {
    "Olá " + userName + "! Tudo bem? Como posso ajudar?"
  }

  const EchoOpening := "Entendi: '"
  const EchoClosing := "'. Em breve um atendente vai responder."

  /** The fallback reply, quoting the message as the user typed it. */
  function EchoReply(message: string): string
  {
    EchoOpening + message + EchoClosing
  }

  /** The keyword groups, tested on the lower-cased message. */
  predicate Greets(message: string)
  {
    Contains(Lower(message), "oi") || Contains(Lower(message), "olá")
  }

  predicate AsksPrice(message: string)
  {
    Contains(Lower(message), "preço") || Contains(Lower(message), "valor")
  }

  predicate Thanks(message: string)
  {
    Contains(Lower(message), "obrigado")
  }

  /** `process_message`: the first rule that matches wins; the reply is never
      empty. `userId` is not consulted; the default `userName` is "". */
  function ProcessMessage(userId: string, message: string, userName: string): (r: string)
    ensures r != ""
  {
    var lower := Lower(message);
    if Contains(lower, "oi") || Contains(lower, "olá") then
      GreetingReply(userName)
    else if Contains(lower, "preço") || Contains(lower, "valor") then
      PriceReply
    else if Contains(lower, "obrigado") then
      ThanksReply
    else
      EchoReply(message)
  }

  /** `process_callback`: the same text for every user and every callback. */
  function ProcessCallback(userId: string, callbackData: string): string
  {
    UnrecognizedOption
  }

  lemma ProcessCallbackConstant(userId: string, callbackData: string, otherUser: string, otherData: string)
    ensures ProcessCallback(userId, callbackData) == ProcessCallback(otherUser, otherData)
    ensures ProcessCallback(userId, callbackData) != ""
  {
  }

  /** The four replies end in four different pairs of characters. */
  lemma Endings(message: string, userName: string)
    ensures var g := GreetingReply(userName); g[|g| - 2..] == "r?"
    ensures PriceReply[|PriceReply| - 2..] == "0."
    ensures ThanksReply[|ThanksReply| - 2..] == " \U{1F60A}"
    ensures var e := EchoReply(message); e[|e| - 2..] == "r."
  {
  }

  /** The four replies are told apart by their closing characters, so the
      reply says which rule fired: the greeting exactly when a greeting
      keyword occurs, whatever else the message holds. */
  lemma {:induction false} GreetingIff(userId: string, message: string, userName: string)
    ensures ProcessMessage(userId, message, userName) == GreetingReply(userName) <==> Greets(message)
  {
    Endings(message, userName);
  }

  /** The price reply exactly when no greeting keyword but a price keyword occurs. */
  lemma {:induction false} PriceIff(userId: string, message: string, userName: string)
    ensures ProcessMessage(userId, message, userName) == PriceReply <==> !Greets(message) && AsksPrice(message)
  {
    Endings(message, userName);
  }

  /** "Por nada!" exactly when "obrigado" occurs and neither earlier rule matched. */
  lemma ThanksIff(userId: string, message: string, userName: string)
    ensures ProcessMessage(userId, message, userName) == ThanksReply
        <==> !Greets(message) && !AsksPrice(message) && Thanks(message)
  {
  }

  /** The echo exactly when no keyword occurs; the original message, not its
      lower-cased form, can be read back from between the quotes. */
  lemma {:induction false} EchoIff(userId: string, message: string, userName: string)
    ensures ProcessMessage(userId, message, userName) == EchoReply(message)
        <==> !Greets(message) && !AsksPrice(message) && !Thanks(message)
    ensures var r := EchoReply(message);
      r[|EchoOpening|..|EchoOpening| + |message|] == message
  {
    Endings(message, userName);
    var e := EchoReply(message);
    assert e[|EchoOpening|..|EchoOpening| + |message|] == message;
  }

  /** Case-insensitivity: a keyword typed in any mix of cases, say "OI" or
      "Olá", selects the greeting. */
  lemma GreetingAnyCase(userId: string, message: string, userName: string, i: nat)
    requires i + 2 <= |message| && Lower(message[i..i + 2]) == "oi"
    ensures ProcessMessage(userId, message, userName) == GreetingReply(userName)
  {
    MentionsAt(message, "oi", i);
  }

  /** Case-insensitivity: "PREÇO" or "Valor" without a greeting selects the price reply. */
  lemma PriceAnyCase(userId: string, message: string, userName: string, k: string, i: nat)
    requires k == "preço" || k == "valor"
    requires i + |k| <= |message| && Lower(message[i..i + |k|]) == k
    requires !Greets(message)
    ensures ProcessMessage(userId, message, userName) == PriceReply
  {
    MentionsAt(message, k, i);
  }

  /** Messages with the same lower-cased form select the same rule; apart from
      the echo, which quotes each message as typed, they get the same reply. */
  lemma SameLowerSameRule(userId: string, m1: string, m2: string, userName: string)
    requires Lower(m1) == Lower(m2)
    ensures Greets(m1) == Greets(m2) && AsksPrice(m1) == AsksPrice(m2) && Thanks(m1) == Thanks(m2)
    ensures Greets(m1) || AsksPrice(m1) || Thanks(m1) ==>
      ProcessMessage(userId, m1, userName) == ProcessMessage(userId, m2, userName)
  {
  }
}
