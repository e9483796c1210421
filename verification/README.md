# AI chatbot backend — a Dafny model of its request handling

The backend is a small Flask service (`Agent/app.py`). Its `/chat` endpoint
receives a JSON message, strips it, and either forwards it to an n8n workflow
webhook or answers on its own. When it answers on its own, the reply comes
from `get_ai_response`: the OpenAI completion when an API key is set and the
call succeeds, otherwise an ordered chain of keyword tests on the lower-cased
prompt. One branch of that chain uses `extract_email_intent`, which finds
e-mail addresses with a regular expression and decides whether the prompt
asks for an email. `/health` reports which integrations are configured.

The model is purely functional, as the source is: every handler is a
function from its inputs to its reply. The network calls, the clock and the
UUID generator become inputs:

- `Upstream` is what the webhook call did;
- `Completion` is what the language-model call produced;
- `clock`, `timestamp` and `sessionId` are the formatted strings the handler
  would have read.

Modules:

- `Options`: the `Option` type, with `GetOr` for `dict.get(key, default)`.
- `Text`: Python's `str.lower` (ASCII), `str.strip` (with Python's
  `str.isspace` set), the `in` operator on strings (`Occurs`) and
  `str.join`.
- `EmailPattern`: the address pattern
  `\b[A-Za-z0-9._%+-]+@[A-Za-z0-9.-]+\.[A-Z|a-z]{2,}\b` and `re.findall`.
  `IsHit` defines what a match is. `Preferred` defines which match the
  backtracking engine reports at a given position. `MatchAt` (the engine at
  one position) and `Scan` (the findall loop) are proved sound and complete
  against those two predicates.
- `Intent`: `extract_email_intent`.
- `Responder`: the keyword chain of `get_ai_response` (`Classify`,
  `LocalReply`) and the language-model choice (`AiResponse`).
- `Dispatch`: `chat` (`Validate`, `Outbound`, `Forward`, `Chat`) and
  `health` (`HealthReport`).

## Model

| member | source | states |
|---|---|---|
| Text.Strip | Agent/app.py:112-115 | `strip()` yields the block of the message left once the whitespace around it is removed; the result neither starts nor ends with whitespace |
| Text.StripBlank | Agent/app.py:112 | `not s.strip()` holds exactly when every character of the message is whitespace |
| Text.StripIdempotent | Agent/app.py:115 | stripping an already stripped prompt changes nothing |
| Text.JoinContainsEach | Agent/app.py:90 | every item of `', '.join(emails)` appears in the joined text |
| EmailPattern.RunEnd | Agent/app.py:28 | a greedy character-class run stops at the first character outside the class, and no longer run exists |
| EmailPattern.TryTopLevel | Agent/app.py:28 | the top-level part (two or more letters or pipe characters, then a word boundary) is tried from the longest length down; the first length ending on a word boundary is taken, and none is missed |
| EmailPattern.TryDomain | Agent/app.py:28 | the domain is given back one character at a time; the result is the rightmost '.' that admits a top-level part, with that part's longest length |
| EmailPattern.MatchAt | Agent/app.py:28-29 | at one position the engine reports a match exactly when one starts there, and the one it reports is the preferred one (longest domain, then longest top-level part) |
| EmailPattern.MatchAtFacts | Agent/app.py:28 | every match at a position has its '@' where the greedy local part stops, and its '.' no further right than the engine's choice |
| EmailPattern.Scan | Agent/app.py:29 | `findall` reports matches in increasing, non-overlapping order, inside the text |
| EmailPattern.ScanSound | Agent/app.py:28-29 | every reported match is a match of the pattern and the engine's preferred one at its start |
| EmailPattern.ScanComplete | Agent/app.py:29 | no match is skipped: every position where a match starts lies inside a reported match |
| EmailPattern.ScanSkip | Agent/app.py:29 | positions where no match starts are passed over |
| EmailPattern.ScanNoAt | Agent/app.py:28-29 | text without an '@' yields no address |
| EmailPattern.HitShape | Agent/app.py:28 | a match holds exactly one '@' with text before it, and ends in a '.' followed by two or more letters or pipe characters |
| EmailPattern.FindEmails | Agent/app.py:29 | every address `re.findall` returns is a block of the prompt with the address shape |
| EmailPattern.EmailShape | Agent/app.py:28-29 | each address returned is a block of the prompt and has the address shape |
| EmailPattern.FindEmailsComplete | Agent/app.py:29 | every position where a match starts is covered by one of the returned addresses |
| EmailPattern.PipeInTopLevel | Agent/app.py:28 | the top-level class as written admits the pipe character, so the text a@b. followed by a pipe and c is returned whole as an address |
| Intent.ExtractEmailIntent | Agent/app.py:26-43 | the request flag is set exactly when one of the five phrases occurs in the lower-cased prompt; the message is the prompt when flagged and empty otherwise; the subject is always empty; the addresses are the `findall` result, each a block of the prompt with the address shape |
| Intent.RequestMentionsEmail | Agent/app.py:38-41 | a prompt flagged as an email request always contains "email" in lower case |
| Intent.SendEmailToAlice | Agent/app.py:26-43 | "send email to alice@example.com about the report" is flagged and yields exactly that one address |
| Responder.Classify | Agent/app.py:74-99 | the chain takes a branch one of whose keywords occurs in the lower-cased prompt, and no keyword of an earlier branch occurs |
| Responder.ClassifyIff | Agent/app.py:74-99 | a branch is taken if and only if one of its keywords occurs and no earlier branch's keyword does |
| Responder.LocalReply | Agent/app.py:73-100 | the keyword chain always gives a non-empty reply |
| Responder.GreetingWins | Agent/app.py:76-77 | a greeting keyword anywhere in the prompt, even inside another word, gets the greeting reply |
| Responder.HiInsideThis | Agent/app.py:76-77 | any prompt whose lower-cased text contains "this" gets the greeting, whatever else it asks, because "hi" occurs inside "this" |
| Responder.EmailAboutThis | Agent/app.py:76-94 | the prompt "send email to bob@example.com about this" gets the greeting, not the email branch |
| Responder.HelloThere | Agent/app.py:76-77 | "hello there" gets the greeting |
| Responder.EmailReply | Agent/app.py:87-94 | a prompt that does not ask for an email gets the offer of help; one that asks but names no address gets the question for a recipient; one that names addresses gets a reply opening with the recipients sentence and containing every address found |
| Responder.EmailBranch | Agent/app.py:86-94 | the email branch is taken exactly when "email" occurs and no earlier branch matched; the reply then lists the addresses, asks for a recipient, or offers help, as the intent says |
| Responder.RecipientsListed | Agent/app.py:88-90 | when the reply lists recipients, every address found in the prompt appears in it |
| Responder.EchoQuotesPrompt | Agent/app.py:99-100 | the default reply quotes the prompt as given, and is reached only when no keyword of any branch occurs |
| Responder.XyzzyPlugh | Agent/app.py:99-100 | "xyzzy plugh" matches no keyword and is echoed back |
| Responder.AiResponse | Agent/app.py:46-100 | with an API key and a completed call the reply is the model's text; otherwise it is the keyword chain's reply, which is non-empty |
| Dispatch.Validate | Agent/app.py:106-115 | a request passes exactly when it is JSON and its message is a string with a non-whitespace character, and the prompt is then the stripped message; a non-JSON body or an invalid message gets 400 with status "error"; a JSON value that is not an object, or a truthy non-string message, makes the handler fail; a body that does not parse gets the framework's 400 page |
| Dispatch.RejectsInvalid | Agent/app.py:106-113 | a non-JSON body, or a message that is absent, falsy or only whitespace, is answered with 400, status "error" and the matching text |
| Dispatch.StrippedBeforeUse | Agent/app.py:115-126 | padding a message with whitespace changes neither the reply nor the forwarded payload |
| Dispatch.ValidateStrips | Agent/app.py:112-115 | validating a message and validating its stripped form give the same result |
| Dispatch.Outbound | Agent/app.py:119-127 | a payload is forwarded exactly when the request is valid and the webhook URL is non-empty; it carries the stripped prompt as both `user_prompt` and `text`, and "mock_user_id" |
| Dispatch.WorkflowReply | Agent/app.py:137-145 | a webhook reply gives HTTP 200 and echoes the webhook's status, defaulting to "success"; its message (default "Workflow executed successfully.") is used verbatim on "success" and prefixed with "Workflow issue: " otherwise |
| Dispatch.DeliveredReply | Agent/app.py:137-145 | when the webhook answers, its reply alone decides the response, and status "error" still gets HTTP 200 |
| Dispatch.FallbackReplies | Agent/app.py:147-158 | a timeout, a request error or any other failure falls back to `get_ai_response` with status "success": a timeout adds the fallback suffix, a request error adds the note |
| Dispatch.WithoutWebhook | Agent/app.py:159-163 | without a webhook URL, whatever a webhook call would have done, a valid message gets `get_ai_response` of its stripped text with HTTP 200, status "success" and no note; that reply is non-empty unless the language model answered with empty text |
| Dispatch.Forward | Agent/app.py:119-163 | after validation every reply has HTTP 200, and its status is "success" unless a webhook answered; without a webhook URL the reply is `get_ai_response` of the prompt with no note |
| Dispatch.Chat | Agent/app.py:103-163 | the handler fails (500) exactly for a JSON value that is not an object or a truthy non-string message; a body that does not parse gets the framework's 400 page; otherwise it answers 400 exactly when validation rejects the request, and 200 in every other case |
| Dispatch.HealthReport | Agent/app.py:166-175 | the report is "healthy" for "AI Chatbot Backend"; the webhook counts as configured when its URL is set, and the language model when the key is non-empty |
| Dispatch.HealthDisagreesOnEmptyUrl | Agent/app.py:166-175 | `/health` reports the webhook as configured while `chat` does not use it exactly when the URL is the empty string |

## Left out

- The Flask application, routing, JSON parsing and the CORS headers (Agent/app.py:8, 18-23, 178-193): framework code. A request is modelled as not JSON, unparsable JSON, a JSON value that is not an object, or a JSON object with a `message` member.
- The framework's error pages: a body declared as JSON that does not parse passes the `is_json` test and then makes reading `request.json` (Agent/app.py:109) raise the framework's bad request, and a JSON value that is not an object makes `.get` raise, giving a 500. The model records only which page is given (`BadRequestPage`, `ServerError`), not its content.
- The HTTP calls to the webhook and to OpenAI (Agent/app.py:50-71, 131-135): they are inputs (`Upstream`, `Completion`). So are the request payload sent to OpenAI and the 10- and 30-second timeouts.
- `datetime.now()` and `uuid.uuid4()`: the formatted strings are parameters.
- `print` logging, and reading `OPENAI_API_KEY` from the environment: the configuration is the `Config` parameter.
- Webhook replies whose `status` or `message` member is not a string: `Delivered` carries strings or absence only.
- Agent/create_docx.py and Agent/script.js are not part of this model.
- Text.Lower: lower-cases ASCII letters only, while Python's `str.lower` also maps non-ASCII letters. The keyword tests can differ on non-ASCII prompts.
- EmailPattern.IsWordChar: `\b` treats only ASCII letters, digits and '_' as word characters, while Python's `re` on `str` patterns also counts Unicode letters and digits.
- Responder.AiResponse: does not promise a non-empty reply when the language model answers, because the model's text is taken as it comes.
