# WhatsApp bot control plane — a Dafny model

This project models the stateful and rule-based core of a small WhatsApp
automation server, and proves properties of that model. The server keeps several
bot "instances" (one WhatsApp session per phone number) behind an HTTP API, and
it answers inbound chat messages with a keyword chatbot. There are three pieces:

- **Instance lifecycle** (`server.js`, module `Instances`). The in-memory registry
  `activeClients` maps an instance id to `{client, status, qr}`. The durable list
  `data.instances` holds the instance records. One class, `InstanceManager`,
  holds both, plus a counter of store-file writes. Its methods are the create
  handler, client registration, the QR lookup and the four session-event handlers
  (`qr`, `authenticated`, `ready`, `disconnected`). Each method ties the new state
  to pure functions of the old one (`Registered`, `AfterEvent`, `StoreAfter`,
  `NewRecord`), and the lemmas are stated about those functions.
- **Keyword reply selectors** (module `Kodassauro` for `processarComChatbot` and
  the message relay in `server.js`; module `Chatbot` for `process_message` and
  `process_callback` in `chatbot_integration.py`). Each is a first-match-wins
  chain of substring tests on the lower-cased text.
- **Site endpoints** (`app.py`, module `SiteApi`). These are phone-number
  normalisation in `send_whatsapp_message`, the validation in
  `api_enviar_mensagem`, and the notification text of `api_notificar_admin`.

`Text` holds the shared string operations: lower-casing, substring search,
prefixes, and a line splitter used to read the notification back. `Wrappers`
holds `Option` and `Result`.

External effects are parameters or returned values:

- The session client is a `Handle` value.
- The QR renderer is a function parameter `render`.
- The generated id and the clock readings are method parameters.
- The JSON store file is the `instances` sequence.
- A pywa `wa.send_message` call (app.py:71, 90) is an `Outgoing` value. Its
  outcome (`Delivered` or `Raised(error)`) is an input.
- The relay's `message.reply` (server.js:195) is the `Option<string>` that
  `Kodassauro.Relay` returns: the text handed over, with no outcome.

## Behaviour worth knowing

- `ready` overwrites `connectedAt` every time it fires (server.js:164), so a
  record keeps the time of its latest connection (`ReadyOverwritesConnectedAt`).
- `disconnected` changes only the status and keeps a rendered QR
  (server.js:173-176). `DisconnectKeepsQr` states that the image stays in the
  registry entry; `GetQr` then reports it, when it is non-empty, with status
  `"disconnected"` (`client.qr || null`, server.js:98, reports an empty image
  as `null`). The registry invariant `EntryValid`
  states this: a QR is present only while the status is `waiting_qr` or
  `disconnected`.
- The waiting status is named `waiting_qr` (server.js:135).
- Creation rejects a field that is empty as well as one that is missing
  (server.js:59). This is JavaScript truthiness, as `Truthy` models it.
- An event for an id with no registry entry still writes an entry
  (server.js:132-176). The spread of `undefined` produces nothing, so that
  entry has no client and no QR (`Prior`). Handlers are attached only to a
  registered client, so this does not arise in the server; the model does not
  exclude it.
- In the QR lookup (server.js:98-99), `client.status || 'initializing'` never
  takes its default, because every status name is non-empty (`StatusName`).
  `client.qr || null` turns an empty rendered string into `null`.
- Python's `str.isdigit` (app.py:84) also accepts the superscripts ¹ ² ³. A
  normalised number therefore contains only "digits" in that sense, not only
  ASCII digits.

## Model

| member | source | states |
|---|---|---|
| `Text.ContainsIff` | chatbot_integration.py:10-14 | the substring test holds exactly when the keyword occurs at some position of the text |
| `Text.ContainsLower` | chatbot_integration.py:8 | a keyword that occurs in any case in the message occurs, lower-cased, in the lower-cased message |
| `Text.Lower` | chatbot_integration.py:8 | the lower-cased text has the same length, no capital is left, and every other character is kept |
| `Text.StartsWith` | app.py:87 | Python's `startswith` (a definition) |
| `Text.Contains` | chatbot_integration.py:10-14 | the empty keyword occurs in every text, and a keyword that occurs is no longer than the text |
| `Chatbot.ProcessMessage` | chatbot_integration.py:5-17 | the reply is never empty |
| `Chatbot.GreetingIff` | chatbot_integration.py:10-11 | the greeting (with the user's name) is given exactly when "oi" or "olá" occurs, whatever price or thanks keyword also occurs |
| `Chatbot.PriceIff` | chatbot_integration.py:12-13 | the fixed price reply is given exactly when no greeting keyword but "preço" or "valor" occurs |
| `Chatbot.ThanksIff` | chatbot_integration.py:14-15 | "Por nada! 😊" is given exactly when "obrigado" occurs and no earlier keyword does |
| `Chatbot.EchoIff` | chatbot_integration.py:16-17 | the fallback is given exactly when no keyword occurs, and the original message, not the lower-cased one, can be read back from between its quotes |
| `Chatbot.GreetingAnyCase` | chatbot_integration.py:8-11 | "oi" typed in any mix of cases anywhere selects the greeting |
| `Chatbot.PriceAnyCase` | chatbot_integration.py:8-13 | "preço" or "valor" typed in any case, with no greeting, selects the price reply |
| `Chatbot.SameLowerSameRule` | chatbot_integration.py:8-15 | messages with the same lower-cased form select the same rule and, outside the echo, get the same reply |
| `Chatbot.ProcessCallback` | chatbot_integration.py:19-20 | the callback handler answers with the fixed "Opção não reconhecida." |
| `Chatbot.ProcessCallbackConstant` | chatbot_integration.py:19-20 | every user and callback get the same non-empty text |
| `Kodassauro.ProcessarComChatbot` | server.js:204-223 | the reply is never empty |
| `Kodassauro.ReplyIff` | server.js:208-222 | price exactly when "preço"/"valor" occurs; site exactly when that does not but "site"/"criar" does; thanks exactly when neither does but "obrigado" does; the greeting exactly when none does |
| `Kodassauro.Relay` | server.js:188-197 | every inbound message is answered, with exactly the chatbot's reply |
| `Kodassauro.PriceAnyCase` | server.js:208-211 | a price keyword typed in any case gets the price reply sent back |
| `Kodassauro.PriceQuestion` | server.js:188-211 | the inbound message "qual o preço?" is answered with the price reply |
| `SiteApi.Digits` | app.py:84 | the filtered string holds only digit characters and is no longer than the input |
| `SiteApi.DigitsOfDigits` | app.py:84 | filtering a string of digits returns it unchanged |
| `SiteApi.NormalizePhone` | app.py:84-88 | the number starts with "55", holds only digits and ends with the input's digits; it is two characters longer than those digits exactly when they do not already start with "55" |
| `SiteApi.NormalizePhoneIdempotent` | app.py:84-88 | normalising a normalised number returns it unchanged |
| `SiteApi.NormalizePhoneIgnoresSeparators` | app.py:84 | inserting non-digit characters anywhere does not change the number sent to |
| `SiteApi.SendWhatsappMessage` | app.py:80-94 | the message goes to the normalised number with the text unchanged; the result is `{"status": "enviado", "para": <that number>}` when the send returns, and the send's exception otherwise |
| `SiteApi.EnviarMensagem` | app.py:20-46 | 400, with nothing sent, exactly when `telefone` or `mensagem` is missing or empty; otherwise one send to the normalised number, answered 200 with the send result, or 500 with the exception text |
| `SiteApi.IsDigit` | app.py:84 | Python's `str.isdigit` on ASCII and Latin-1: the ten decimal digits and the superscripts one to three (a definition) |
| `SiteApi.Get` | app.py:56-59 | Python's `data.get(key, default)` (a definition) |
| `SiteApi.NotificationText` | app.py:64-68 | the header and a blank line, then the four labelled field lines, built by the same appends as the handler |
| `SiteApi.NotificarAdmin` | app.py:50-77 | one send to the fixed admin number, not normalised, of the text built from the fields with `nome` defaulting to "Visitante" and `origem` to "formulário do site"; 200 unless the send raised, then 500 |
| `SiteApi.AppendLine` | app.py:65-67 | appending a field line and a line break to a text that ends in an empty line fills that line and opens a new one |
| `SiteApi.LayoutHead` | app.py:64-68 | when the header, three field lines and label hold no line break, the text up to the label reads back as exactly those lines |
| `SiteApi.LayoutLines` | app.py:64-68 | for any header, three field lines and label free of line breaks, and any last value, the text reads back as those lines, the label joined to the value's first line, then the value's other lines |
| `SiteApi.NotificationLines` | app.py:64-68 | when `nome`, `email` and `origem` hold no line break, the text reads back as the header, a blank line, the Nome, Email and Origem lines, then the lines of `mensagem` with "*Mensagem:* " before the first; `mensagem` may hold any number of line breaks |
| `SiteApi.NotificationSixLines` | app.py:64-68 | when no field holds a line break, the text is exactly the six lines header, blank, Nome, Email, Origem, Mensagem |
| `SiteApi.NotificationDefaults` | app.py:56-68 | a form without a name or an origin, whose `email` holds no line break, produces at least six lines, with "*Nome:* Visitante" third and "*Origem:* formulário do site" fifth, whatever `mensagem` holds; exactly six when `mensagem` holds no line break |
| `Instances.StatusName` | server.js:99 | every status name is non-empty, so the lookup's `'initializing'` default is never reached |
| `Instances.WebhookUrlNamesInstance` | server.js:73 | the webhook URL is the fixed prefix followed by the id; the id can be read back and distinct ids get distinct URLs |
| `Instances.WebhookUrl` | server.js:73 | the webhook URL: the fixed prefix followed by the id (a definition; `WebhookUrlNamesInstance` states its properties) |
| `Instances.SessionHandle` | server.js:107-111 | the session client made for an id: client id the instance id, data path `./sessions/` followed by the id (a definition) |
| `Instances.Saves` | server.js:162-165 | whether a handler calls `saveInstances`: only `ready` and `disconnected`, and only when a record has the id (also server.js:181-183; a definition) |
| `Instances.Truthy` | server.js:59 | a field counts as given when it is present and not empty |
| `Instances.NewRecord` | server.js:67-74 | the new record carries the given id, name, number and creation time, status initializing, no connection time, and the webhook URL derived from the id |
| `Instances.Registered` | server.js:119-123 | the entry of the id holds the client made for it, initializing and without a QR, whatever it held before; no other entry changes |
| `Instances.Prior` | server.js:132-176 | the object spread `{...activeClients.get(id)}`: the current entry, or one with no client and no QR when the id has none (a definition) |
| `Instances.Applied` | server.js:132-176 | every handler keeps the client; `qr` sets the image and `waiting_qr`, `authenticated` and `ready` clear the QR, `disconnected` keeps it |
| `Instances.Stamped` | server.js:163-164 | only the status and the connection time of the found record change; `ready` sets connected at the given time, `disconnected` keeps that time |
| `Instances.AfterEvent` | server.js:132-176 | a session event changes only the entry of its own id and keeps that entry's client handle |
| `Instances.FindIndex` | server.js:161 | -1 exactly when no record has the id; otherwise the first record that has it |
| `Instances.FindIndexAppend` | server.js:76 | after a record with a fresh id is appended, the lookup finds it at the end and every other id where it was before |
| `Instances.StoreAfter` | server.js:160-184 | the store keeps its length and ids, only the found record can change, and nothing changes unless a `ready`/`disconnected` finds a record |
| `Instances.AppendValid` | server.js:66-77 | appending the new record with a fresh id keeps the ids unique and every record well formed |
| `Instances.StoreAfterValid` | server.js:160-184 | the store events keep the ids unique and every record well formed (connected implies a connection time) |
| `Instances.RegisteredValid` | server.js:119-123 | registration keeps every entry's client bound to its own id, with a QR only while waiting for a scan or disconnected |
| `Instances.AfterEventValid` | server.js:132-176 | each of the four events keeps every entry's client bound to its own id, with a QR only while waiting for a scan or disconnected |
| `Instances.EventIdempotent` | server.js:126-176 | handling the same event twice leaves the registry as handling it once |
| `Instances.StoreEventIdempotent` | server.js:160-184 | handling the same event twice leaves the store as handling it once |
| `Instances.ReadyOverwritesConnectedAt` | server.js:164 | after two `ready` events the stored connection time is the second one's |
| `Instances.Reconnects` | server.js:150-184 | a `ready` after a `disconnected` brings both the registry entry and the stored record back to connected |
| `Instances.DisconnectKeepsQr` | server.js:173-176 | `disconnected` keeps a previously rendered QR in the entry |
| `Instances.LateQrOverwrites` | server.js:125-156 | a `qr` write after `authenticated` or `ready` leaves the entry `waiting_qr` with the image and its client, as when the `qr` handler resumes from its await after the other event |
| `Instances.HappyPath` | server.js:56-166 | create, then qr, authenticated and ready: the registry holds the original client, no QR, connected; the store is the old records followed by the new one, connected at the ready time |
| `Instances.InstanceManager.constructor` | server.js:23-43 | a new process starts with an empty registry next to the stored records |
| `Instances.InstanceManager.ListInstances` | server.js:50-53 | returns every stored record, in order |
| `Instances.InstanceManager.CreateInstance` | server.js:56-86 | fails with nothing stored or registered when `name` or `number` is missing or empty; otherwise appends a record with status initializing and webhook URL prefix+id after the unchanged old records, writes the store once and registers the client |
| `Instances.InstanceManager.StartWhatsAppClient` | server.js:104-123 | sets the entry for the id to its new client, status initializing, no QR |
| `Instances.InstanceManager.GetQr` | server.js:89-101 | on a valid registry: not found exactly when the registry has no entry for the id; otherwise the entry's QR, `null` when unset or empty, and its status name; a reported QR comes only with status `waiting_qr` or `disconnected` |
| `Instances.InstanceManager.OnQr` | server.js:126-137 | the entry gets the rendered image and status waiting_qr; its client is kept |
| `Instances.InstanceManager.OnAuthenticated` | server.js:140-147 | the entry gets status authenticated and no QR; the store is untouched |
| `Instances.InstanceManager.OnReady` | server.js:150-167 | the entry gets status connected and no QR; the store's record for the id, if any, becomes connected at the given time, with one write; no record, no write |
| `Instances.InstanceManager.OnDisconnected` | server.js:170-185 | only the entry's status changes, to disconnected; the store's record for the id, if any, becomes disconnected, with one write |

## Left out

- HTTP plumbing: Express and Flask routing, CORS, static files and JSON
  (de)serialisation. Only the handlers' logic is modelled. The `/admin` HTML page,
  `app.listen`, dotenv, the port settings and all logging are left out too.
- Request bodies: a body field is a string or absent. Numbers, booleans and JSON
  `null` are not modelled. Neither is a Flask request without a JSON body, which
  makes `data.get` raise and the handler answer 500.
- The whatsapp-web.js `Client`, `LocalAuth`, puppeteer and `client.initialize()`
  are foreign transport code. The client is a `Handle` value that records its
  client id and session directory. Session start-up, and events other than the
  four handled ones plus `message`, are not modelled.
- `message.reply` and pywa's `wa.send_message` are external effects.
  `Kodassauro.Relay` returns the reply text it hands to `message.reply`; a
  failed or rejected `message.reply`, and so any outcome of that send, is not
  modelled. `wa.send_message` appears
  as the returned `SiteApi.Outgoing` value, with its outcome as an input.
- `qrcode.toDataURL` is the `render` parameter. A rejection of its promise is not
  modelled.
- File I/O: the store is the `instances` sequence and `saves` counts the calls to
  `saveInstances`. The `loadInstances` error fallback, a failing write and the
  directory creation are not modelled.
- `Date.now()`, `Math.random()` and `new Date().toISOString()` are
  nondeterministic. The id and the timestamps are parameters, and the id is
  required to be new to the store. The id's format (`inst_<ms>_<up to six base-36
  characters>`) is not modelled.
- Concurrency: the model applies each handler as one step. The file calls are
  synchronous, so two handlers cannot interleave their read and write of the
  store. Among the handlers that change the registry or the store, the one
  suspension point is `await qrcode.toDataURL` in the `qr` handler
  (server.js:130); the `message` handler also awaits (server.js:192, 195) but
  changes neither. An `authenticated` or `ready` that fires while the image is
  rendered is overwritten by the late `qr` write, which reads the entry only
  after its await (server.js:132-133). The model reaches that state through
  the order authenticated-then-qr (`LateQrOverwrites`: `waiting_qr` with the
  image); what it does not represent is that the `qr` event was emitted before
  the `authenticated` one.
- `Instances.InstanceManager.constructor`: requires `StoreValid(stored)`, so it
  assumes the store file holds only records this server wrote (unique ids, the
  webhook URL derived from the id, only initializing, connected or
  disconnected statuses). `loadInstances` (server.js:23-32) accepts any file.
- `Text.Lower`: only ASCII and Latin-1 capitals are lower-cased. Capitals from
  other scripts are kept as they are. Characters whose lower case is longer (such
  as U+0130) are not modelled. Every keyword is in Latin-1.
- `SiteApi.IsDigit`: Python's `str.isdigit` is modelled on ASCII and Latin-1
  only. Digits of other scripts are treated as non-digits.
- Unused inputs: `user_id` in `process_message` is not consulted, and neither is
  `nome` in `api_enviar_mensagem` or `number` in `startWhatsAppClient`. The model
  keeps them as parameters or leaves them out.
