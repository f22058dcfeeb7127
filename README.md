# EventEye certificate pipeline, modelled in Dafny

EventEye lets an organizer create events, fill each event's roster with
participants, and generate one certificate per participant. It then delivers
the certificates by e-mail (and, through an orchestrator, by WhatsApp), keeps
per-participant and per-certificate delivery status, and reports dashboard
aggregates. This project models the server side of that work:

- the two Mongoose schemas: `Event` with its embedded participants, and
  `Certificate`. Enums, defaults, length limits and required fields are
  modelled.
- the certificate builder: certificate numbers, verification URLs, layout
  palettes and the bulk loop that isolates failures.
- the chat adapter: a session state machine, guarded sends, and phone-number
  formatting.
- the e-mail adapter: subject, attachment name, placeholder substitution, and
  a batched bulk send that pairs certificates with participants by position.
- the delivery orchestrator, which combines the two channels.
- the route bodies for events, certificates, dashboard and e-mail, without
  HTTP and without the database. Their 400/403/404 guards are error results.
  Their status updates are loops over the stored records.

Layout:

- One module per source file: `EventModel`, `CertificateModel`,
  `CertificateGenerator`, `WhatsAppService`, `EmailService`,
  `MessagingService`, `EventRoutes`, `CertificateRoutes`, `DashboardRoutes`,
  `EmailRoutes`.
- Shared helpers:
  - `Wrappers`: `Option` and `Result`, and the generic sequence helpers the
    selections and counts rest on: `Filter` (with `FilterCounts`), `Count`,
    `FirstIndex` and `ConcatAssoc`.
  - `Text`: JavaScript truthiness, `||` on strings, trimming, regex-free
    replacement and whitespace-run replacement, upper-casing.
  - `Tally`: `Math.ceil` of a ratio, and `Math.round` of a percentage.
  - `Batching`: the "send a batch, pause unless it was the last" loop that
    three parts of the source share.
  - `Store`: the in-memory collections and the lookup guards.

How the program's surroundings are modelled:

- The external libraries are classes with fixed answers and a call log, so
  "nothing was sent" is a statement about the log:
  - `EmailService.Transport` (nodemailer)
  - `WhatsAppService.ChatClient` (whatsapp-web.js)
  - `EmailRoutes.SmtpProbe` (`transporter.verify`)
- The clock, `Math.random`, `uuidv4`, locale date rendering and the PDF
  renderer's success are supplied as inputs:
  - `CertificateGenerator.Draw`, one per participant
  - `now`, `displayDate` and `timeText` parameters
- The file system's answer to `fs.access` is a set of existing paths.
- The database is `Store.Database`, a class with one `seq` per collection.
  Each handler method is proved equal to a pure specification function
  (`Generation`, `Sending`, `AddParticipants`, `BulkEmail`). The properties
  are proved about those functions.

Behaviour kept as written:

- The verification URL embeds the generated `CERT-…` number. The stored
  `certificateId`, and the certificate's own `certificateNumber` field, are
  the uuid (`CertificateRoutes.RecordFor`).
- The orchestrator reads `phoneNumber`, but roster entries store `phone`. A
  roster participant therefore never gets the chat leg
  (`MessagingService.RosterHasNoChatLeg`).
- The send handler gives the e-mail adapter the event's certificates in
  store order, all marked successful. The adapter pairs them with the roster
  by position, so participant i is mailed the i-th stored file. When an
  earlier participant's certificate failed to render, that file belongs to
  someone else (`CertificateRoutes.SendMailsByPosition`). With fewer
  certificates than participants, the tail of the roster gets
  `Certificate generation failed` (`CertificateRoutes.SendAlignedByPosition`).

## Model

| member | source | states |
|---|---|---|
| EventModel.ParseEventType | server/models/Event.js:30-34 | a string is accepted exactly when it names one of the two event types (`paid`, `free`) |
| EventModel.ParseLayout | server/models/Event.js:68-72 | a string is accepted exactly when it names one of `classic`, `modern`, `minimal` |
| EventModel.ParseEventStatus | server/models/Event.js:74-78 | a string is accepted exactly when it names one of the four event statuses |
| EventModel.ParseParticipantStatus | server/models/Event.js:96-100 | a string is accepted exactly when it names one of the five participant statuses; `bounced` is not one of them |
| EventModel.NewParticipant | server/models/Event.js:79-109 | a new roster entry keeps name, email and date; phone defaults to `''`; status is `pending`; `certificateId` and `qrCode` are `''`; a non-empty name and email make it valid |
| EventModel.CastTrimmed | server/models/Event.js:4-15 | a trimmed required string field is accepted iff its trimmed value is non-empty and at most the maximum in UTF-16 code units, as `maxlength` counts; the stored value is the trimmed one with no outer whitespace; a missing or blank value reports `required`, an over-long one `maxlength` |
| EventModel.AstralTitleTooLong | server/models/Event.js:8 | a title of 51 characters beyond the Basic Multilingual Plane is 102 units long and is refused as too long |
| EventModel.CountStatus | server/routes/events.js:345-351 | a per-status count of a roster never exceeds the roster length |
| EventModel.CountStatusPartition | server/routes/events.js:345-351 | the five per-status counts of a roster add up to its length |
| EventModel.CountStatusComplement | server/routes/dashboard.js:142-143 | the entries with a status and the entries with any other status together make up the roster |
| EventModel.CountOtherThan | server/routes/dashboard.js:142-143 | the entries with a status other than the given one never exceed the roster |
| EventModel.CountStatusAppend | server/routes/events.js:295 | counting over an appended roster adds the counts of the two parts |
| CertificateModel.ParseStatus | server/models/Certificate.js:68-72 | a string is accepted exactly when it names one of the five certificate statuses |
| CertificateModel.ParseDeliveryMethod | server/models/Certificate.js:81-85 | a string is accepted exactly when it names `email`, `whatsapp` or `both` |
| CertificateModel.NewCertificate | server/models/Certificate.js:3-110 | a new record holds the given fields; status defaults to `generated`, attempts to 0, last attempt to null, method to `email`, file size to 0 and `templateUsed` to `'default'` |
| CertificateModel.CountStatus | server/routes/dashboard.js:123-130 | a per-status count never exceeds the number of certificates |
| CertificateModel.CountMethod | server/routes/dashboard.js:151-155 | a per-method count never exceeds the number of certificates |
| CertificateModel.CountStatusPartition | server/routes/dashboard.js:123-130 | the five per-status counts add up to the total |
| CertificateModel.CountMethodPartition | server/routes/dashboard.js:151-155 | the three per-method counts add up to the total |
| CertificateModel.CountStatusAppend | server/routes/dashboard.js:242-243 | counting over a concatenation adds the counts of the parts |
| CertificateGenerator.Base36Digit | server/services/certificateGenerator.js:219 | a digit below 36 becomes a lower-case base-36 character |
| CertificateGenerator.Base36 | server/services/certificateGenerator.js:219 | the base-36 numeral of a number is non-empty and made of lower-case base-36 characters |
| CertificateGenerator.DigitRoundTrip | server/services/certificateGenerator.js:219-221 | an upper-cased base-36 digit reads back as the same value |
| CertificateGenerator.Base36RoundTrip | server/services/certificateGenerator.js:219-221 | the upper-cased numeral of a timestamp reads back as that timestamp and uses only `[0-9A-Z]` |
| CertificateGenerator.Substr | server/services/certificateGenerator.js:220 | `substr` returns at most the requested number of characters |
| CertificateGenerator.CertificateNumber | server/services/certificateGenerator.js:218-222 | the number starts with `CERT-`; for any output of `Math.random().toString(36)`, every character is a digit, an upper-case letter or `-` |
| CertificateGenerator.IndexOf | server/services/certificateGenerator.js:218-222 | the first position of a character, or none when it does not occur |
| CertificateGenerator.CertificateNumberRoundTrip | server/services/certificateGenerator.js:218-222 | a certificate number parses back into its timestamp and the random part kept |
| CertificateGenerator.ParseParts | server/services/certificateGenerator.js:218-222 | `CERT-` + a non-empty upper-case numeral + `-` + the rest reads back as that numeral's value and the rest |
| CertificateGenerator.FirstDash | server/services/certificateGenerator.js:221 | in a dash-free prefix followed by `-`, that dash is the first one |
| CertificateGenerator.DistinctTimestampsDistinctNumbers | server/services/certificateGenerator.js:218-222 | numbers drawn at different timestamps are different |
| CertificateGenerator.VerificationUrl | server/services/certificateGenerator.js:156-159 | the URL is the base (CLIENT_URL or `http://localhost:3000`) + `/verify/` followed by the certificate number, which ends it |
| CertificateGenerator.VerificationUrlRoundTrip | server/services/certificateGenerator.js:156-159 | the certificate number can be read back from the URL made against the same base |
| CertificateGenerator.BackgroundColor | server/services/certificateGenerator.js:67-79 | `#667eea` iff `modern`, `#f8fafc` iff `minimal`, `#1e3a8a` for every other name |
| CertificateGenerator.LayoutPalettesDistinct | server/services/certificateGenerator.js:67-79 | the three schema layouts get three different background colours |
| CertificateGenerator.LayoutOf | server/services/certificateGenerator.js:197 | the event template's layout when truthy, otherwise `classic` |
| CertificateGenerator.GenerateCertificate | server/services/certificateGenerator.js:21-65 | succeeds iff the render succeeds; the record holds the uuid, `certificate_<uuid>.pdf`, its path and the verification URL as QR data; failure is `Failed to generate certificate` |
| CertificateGenerator.GenerateFor | server/services/certificateGenerator.js:186-212 | one result for the participant: success iff its render succeeds, a certificate exactly on success, the caught error on failure |
| CertificateGenerator.GenerateBulkCertificates | server/services/certificateGenerator.js:183-216 | one result per participant, in roster order, result i being participant i's |
| CertificateGenerator.FailureIsolation | server/services/certificateGenerator.js:186-212 | changing one participant's render outcome changes no other participant's result |
| CertificateGenerator.CountSucceeded | server/routes/certificates.js:131 | at most one success per result |
| CertificateGenerator.CountFailed | server/routes/certificates.js:132 | at most one failure per result |
| CertificateGenerator.SucceededPlusFailed | server/routes/certificates.js:128-132 | successes and failures together count every result |
| WhatsAppService.FormatPhoneNumberShape | server/services/whatsappService.js:184-195 | the id is a run of digits followed by `@c.us`, and the run is never exactly ten digits long |
| WhatsAppService.FormatPhoneNumberDigits | server/services/whatsappService.js:184-195 | the id before `@c.us` is exactly the input's digits, with a `1` in front when there are ten of them |
| WhatsAppService.FormatPhoneNumberExample | server/services/whatsappService.js:189-191 | worked case: `555-0001` formats to `5550001@c.us` |
| WhatsAppService.FormatPhoneNumberIdempotent | server/services/whatsappService.js:184-195 | formatting a formatted id changes nothing |
| WhatsAppService.ChatClient.Initialize | server/services/whatsappService.js:73 | the client answers its fixed initialise outcome and logs the call |
| WhatsAppService.ChatClient.Destroy | server/services/whatsappService.js:84 | the client answers its fixed destroy outcome and logs the call |
| WhatsAppService.ChatClient.IsRegistered | server/services/whatsappService.js:111 | registered iff the id is in the client's registered set; the lookup is logged |
| WhatsAppService.ChatClient.SendMessage | server/services/whatsappService.js:132 | a text send succeeds iff the id is not refused; it is logged |
| WhatsAppService.ChatClient.SendDocument | server/services/whatsappService.js:135-138 | a media send succeeds iff the id is not refused; it is logged with its caption |
| WhatsAppService.ChatClient.Info | server/services/whatsappService.js:203 | answers the client's fixed info and logs the read |
| WhatsAppService.ReplayKeepsClient | server/services/whatsappService.js:68-91 | once there is a client, no event or start/stop removes it |
| WhatsAppService.ReplayReadiness | server/services/whatsappService.js:49-65 | readiness is what the newest `ready`, `disconnected` or successful `stop` set |
| WhatsAppService.ReplayQrCode | server/services/whatsappService.js:43-47 | the stored pairing code is the newest one emitted |
| WhatsAppService.SendOutcome | server/services/whatsappService.js:101-147 | success iff ready, registered, and both text and media go through; not ready gives `WhatsApp client is not ready`; unregistered names the number; a refused text or media fails with the client's own error message |
| WhatsAppService.SendCalls | server/services/whatsappService.js:101-141 | not ready makes no call; an unregistered id gets only the lookup; a registered id gets the lookup, the certificate text and, unless the text is refused, the document with the `Your certificate for` caption, all to the formatted number; a delivering send makes all three calls |
| WhatsAppService.BulkCallsStep | server/services/whatsappService.js:152-179 | the bulk call log is the per-entry logs in input order |
| WhatsAppService.Entries | server/services/whatsappService.js:149-182 | one bulk entry per input |
| WhatsAppService.EntriesStep | server/services/whatsappService.js:152-179 | the bulk entries extend one input at a time, in order |
| WhatsAppService.EntriesAligned | server/services/whatsappService.js:161-166 | entry i carries input i's name and number and succeeds iff that send goes through |
| WhatsAppService.PacedSends | server/services/whatsappService.js:152-179 | two trace events per message |
| WhatsAppService.PacedSendsFacts | server/services/whatsappService.js:169 | every message is sent once, in order, and each one, the last one included, is followed by a pause |
| WhatsAppService.WhatsAppServiceState.constructor | server/services/whatsappService.js:7-12 | a new service holds the client it built (or none), not ready, no code |
| WhatsAppService.WhatsAppServiceState.OnQr | server/services/whatsappService.js:43-47 | the `qr` handler stores the code |
| WhatsAppService.WhatsAppServiceState.OnReady | server/services/whatsappService.js:49-52 | the `ready` handler sets readiness |
| WhatsAppService.WhatsAppServiceState.OnDisconnected | server/services/whatsappService.js:62-65 | the `disconnected` handler clears readiness |
| WhatsAppService.WhatsAppServiceState.Start | server/services/whatsappService.js:68-79 | builds a client when there is none, initialises it, and reports whether that worked |
| WhatsAppService.WhatsAppServiceState.Stop | server/services/whatsappService.js:81-91 | destroys the client if there is one; readiness is cleared only when that succeeds |
| WhatsAppService.WhatsAppServiceState.GetQRCode | server/services/whatsappService.js:93-95 | the stored pairing code |
| WhatsAppService.WhatsAppServiceState.IsClientReady | server/services/whatsappService.js:97-99 | the stored readiness |
| WhatsAppService.WhatsAppServiceState.SendCertificate | server/services/whatsappService.js:101-147 | the result is `SendOutcome` and the client's log grows by exactly `SendCalls`: the lookup, then the text, then the document, to the formatted number |
| WhatsAppService.WhatsAppServiceState.SendBulkCertificates | server/services/whatsappService.js:149-182 | one entry per input, in order; the log grows by the per-entry calls; a pause follows every message |
| WhatsAppService.WhatsAppServiceState.SendEntry | server/services/whatsappService.js:152-166 | one bulk entry is the reference entry for that recipient, and the log grows by exactly its calls |
| WhatsAppService.WhatsAppServiceState.GetClientInfo | server/services/whatsappService.js:197-213 | not ready answers `WhatsApp client not ready` without a call; otherwise the client's info, or its error |
| EmailService.Transport.SendMail | server/services/emailService.js:63 | the transport logs every mail, accepts it iff the address is not refused, and gives as the message id its log position |
| EmailService.EmailServiceState.constructor | server/services/emailService.js:5-9 | a new adapter holds the given transporter and the EMAIL_USER and CLIENT_URL settings |
| EmailService.Subject | server/services/emailService.js:43 | the custom subject when truthy, otherwise `Your Certificate - ` + title; never empty |
| EmailService.AttachmentFileName | server/services/emailService.js:56 | `Certificate_` + the name with each whitespace run as `_` + `.png`; the stem has no whitespace; a name without whitespace is kept |
| EmailService.PlainCustomBodyUnchanged | server/services/emailService.js:117-124 | a custom body with no placeholder is sent exactly as written |
| EmailService.NoBraceNoPattern | server/services/emailService.js:119-123 | a text without `{` holds no placeholder |
| EmailService.SubstitutionsApplyInOrder | server/services/emailService.js:118-123 | worked case: a name reading `{eventTitle}` ends up as the event title, because the substitutions run over the previous result |
| EmailService.FillPlaceholdersInSequence | server/services/emailService.js:118-123 | the five substitutions are the replacement list applied one after another, in the source's order |
| EmailService.SubstitutionsBracketed | server/services/emailService.js:118-123 | with `{`-free values, every substitution is a placeholder one and the placeholders tell each other apart |
| EmailService.FillPlaceholdersReplaces | server/services/emailService.js:118-123 | with `{`-free values, any placeholder after `{`-free text becomes its value, and the rest of the body is filled in as if on its own |
| EmailService.DefaultBodyGreets | server/services/emailService.js:116-126 | without a truthy custom body the fixed body is used, greeting the participant by name |
| EmailService.EmailServiceState.CertificateMail | server/services/emailService.js:46-61 | the mail goes to the participant from `EventEye Certificate System` at EMAIL_USER or `noreply@eventeye.com`, with the chosen subject and the one certificate attachment |
| EmailService.EmailServiceState.SendOutcome | server/services/emailService.js:63-77 | the result names the participant; success iff the transport accepts, with its message id; otherwise the transport's error |
| EmailService.EmailServiceState.SendCertificateEmail | server/services/emailService.js:38-78 | one mail is handed over and the result is `SendOutcome`; a refusal is returned, not raised |
| EmailService.EmailServiceState.BulkMails | server/services/emailService.js:84-102 | exactly one mail per participant among the first k that has a successful certificate |
| EmailService.EmailServiceState.CountEligible | server/services/emailService.js:87-94 | the number of participants among the first k that have a successful certificate, at most k |
| EmailService.EmailServiceState.BulkMailsFromEligible | server/services/emailService.js:87-101 | every mail is the certificate mail of some participant before k with a successful certificate |
| EmailService.EmailServiceState.BulkMailsReachEligible | server/services/emailService.js:87-101 | an eligible participant i gets mail number `CountEligible(i)`, with its own certificate attached |
| EmailService.EmailServiceState.BulkResults | server/services/emailService.js:80-114 | one result per participant |
| EmailService.EmailServiceState.BulkResultsAligned | server/services/emailService.js:86-101 | result i is participant i's: `Certificate generation failed` when the certificate at index i is missing or unsuccessful, otherwise its own send outcome |
| EmailService.EmailServiceState.BulkMailsOnlyEligible | server/services/emailService.js:87-101 | every mail is the certificate mail of an eligible participant, and each eligible participant i gets its mail at position `CountEligible(i)` |
| EmailService.EmailServiceState.BulkMailsByPosition | server/services/emailService.js:87-94 | with every certificate successful, the first min(k, certificates) participants are mailed, mail i to participant i with certificate i attached |
| EmailService.EmailServiceState.SendBatch | server/services/emailService.js:85-105 | a batch extends the results and the log in participant order |
| EmailService.EmailServiceState.SendBulkCertificates | server/services/emailService.js:80-114 | results and mails in participant order, batches of 10, a 2000 ms pause only between batches |
| EmailService.EmailServiceState.SendTestEmail | server/services/emailService.js:238-266 | one fixed test mail; success iff accepted, with its message id, otherwise the transport's error |
| EmailService.EmailServiceState.TestMail | server/services/emailService.js:240-252 | the test mail goes from `EventEye Test`, has subject `EventEye Email Test` and no attachment |
| Batching.Sends | server/services/emailService.js:84-86 | the sends of items lo..hi-1, in order |
| Batching.SendsFacts | server/services/emailService.js:84-86 | a batch sends its items in order and pauses nowhere |
| Batching.ScheduleFromSends | server/services/emailService.js:84-111 | from any batch start on, every remaining item is sent once, in order |
| Batching.ScheduleAdvance | server/services/emailService.js:84-111 | running one more batch from a batch start keeps the trace a prefix of the whole schedule, the rest starting at the next batch |
| Batching.ScheduleDone | server/services/emailService.js:84-111 | once the batch start passes the end, the trace is the whole schedule |
| Batching.ScheduleSendsEachItemInOrder | server/services/emailService.js:84-111 | a batch loop sends every item exactly once, in item order |
| Batching.ScheduleFromPauses | server/services/messagingService.js:91-94 | from batch start i on there are `ceil((n - i) / size) - 1` pauses |
| Batching.SchedulePauseCount | server/services/messagingService.js:64-94 | a batch loop over n items pauses `ceil(n / size) - 1` times |
| Batching.SchedulePausesBetweenBatches | server/services/emailService.js:108-110 | every pause comes right after a full batch and before another send: never after the last batch |
| Batching.ScheduleFromPausePlacement | server/services/emailService.js:104-111 | from any batch start on, every pause follows a full batch and precedes another send |
| Batching.ScheduleFromUnfold | server/services/emailService.js:84-111 | one loop iteration: a batch of sends, a pause unless it was the last, then the rest |
| MessagingService.BatchSizeOf | server/services/messagingService.js:64 | corrected size: `options.batchSize` when positive, otherwise 5, so always positive |
| MessagingService.SourceBatchSize | server/services/messagingService.js:64 | the size as written: 5 only for 0, any other value kept, negatives included |
| MessagingService.NegativeBatchSizeNeverEnds | server/services/messagingService.js:66 | with a negative size and a non-empty roster, the index `i += batchSize` never rises above 0, so the loop guard holds in every round |
| MessagingService.BatchSizeAgrees | server/services/messagingService.js:64-66 | for a non-negative size the corrected and the written sizes agree, and the first round moves the index forward |
| MessagingService.MessagingServiceState.constructor | server/services/messagingService.js:5-9 | the orchestrator holds the mail adapter and the chat adapter it is given |
| MessagingService.RosterHasNoChatLeg | server/services/messagingService.js:18-39 | a roster participant, which stores `phone` rather than `phoneNumber`, never gets the chat leg; it gets the mail leg when its email is non-empty and mail is not switched off |
| MessagingService.MessagingServiceState.MailsOf | server/services/messagingService.js:22-36 | one mail exactly when the mail leg applies |
| MessagingService.MessagingServiceState.Outcome | server/services/messagingService.js:11-60 | a leg's result is present iff its leg applies; success is the OR of the present legs' successes, false when none applies |
| MessagingService.MessagingServiceState.SendCertificate | server/services/messagingService.js:11-60 | the result is `Outcome`; the transport and the chat client receive exactly the legs that apply |
| MessagingService.MessagingServiceState.BulkResults | server/services/messagingService.js:62-98 | one result per participant |
| MessagingService.MessagingServiceState.BulkResultsAligned | server/services/messagingService.js:69-85 | result i is participant i's: the generation failure with both legs null when certificate i is missing or unsuccessful, otherwise its own legs |
| MessagingService.MessagingServiceState.SendAt | server/services/messagingService.js:68-86 | participant j's result and the mails and calls it causes |
| MessagingService.MessagingServiceState.SendBatch | server/services/messagingService.js:67-89 | a batch extends results, mails and calls in participant order |
| MessagingService.MessagingServiceState.SendBulkCertificates | server/services/messagingService.js:62-98 | results in roster order, batches of `batchSize` or 5, a pause only between batches |
| MessagingService.MessagingServiceState.GetServiceStatus | server/services/messagingService.js:100-114 | mail is always available and ready; chat availability, readiness and code are the adapter's; ready implies available |
| MessagingService.MessagingServiceState.TestEmailMessage | server/services/messagingService.js:158-162 | one test mail and no chat call |
| MessagingService.MessagingServiceState.TestChatMessage | server/services/messagingService.js:163-180 | no mail; the chat calls of `ChatTestCalls` |
| MessagingService.MessagingServiceState.SendTestMessage | server/services/messagingService.js:150-189 | the result is `TestOutcome`; a mail only on the e-mail route, chat calls only on the chat route |
| MessagingService.TestRouteOf | server/services/messagingService.js:158-181 | mail iff the type is `email` and the recipient has `@`; chat iff the type is `whatsapp`; refused otherwise |
| MessagingService.EmailTestOutcome | server/services/messagingService.js:159-162 | success iff the transport accepts, with the matching message and error |
| MessagingService.ChatTestOutcome | server/services/messagingService.js:163-180 | not ready and unregistered both fail with their messages; a refused text fails with the client's own error message; success iff ready, registered and the text is accepted |
| MessagingService.ChatTestCalls | server/services/messagingService.js:164-178 | no call when not ready; the lookup first; the text, `message` or the default, only to a registered id |
| MessagingService.TestOutcome | server/services/messagingService.js:181-183 | any other type or recipient gives `Invalid message type or recipient format` |
| Store.FindEvent | server/routes/certificates.js:37 | the position of the first event with the id, or none when no event has it |
| Store.Database.constructor | server/routes/certificates.js:37 | the store holds exactly the given events and certificates |
| Store.OwnedEvent | server/routes/certificates.js:38-51 | 404 `Event not found` when missing, 403 when owned by someone else, otherwise the event's position |
| Store.EventCertificates | server/routes/certificates.js:178 | exactly the records of the event, in stored order |
| Store.EventCertificatesComplete | server/routes/certificates.js:178-184 | the event has no records iff no stored record names it |
| CertificateRoutes.FirstWithEmail | server/routes/certificates.js:113-115 | the first roster position with the email, or none |
| CertificateRoutes.Marked | server/routes/certificates.js:117-118 | a status update changes the status, and the id when it carries one, and nothing else |
| CertificateRoutes.MarkFirst | server/routes/certificates.js:112-119 | only the first participant with the email is updated; without one the roster is unchanged |
| CertificateRoutes.ApplyMarks | server/routes/certificates.js:80-121 | updates keep the roster's length and emails |
| CertificateRoutes.OwnMarks | server/routes/certificates.js:112-119 | a participant's own updates keep its email |
| CertificateRoutes.ApplyMarksSnoc | server/routes/certificates.js:80-121 | applying one more update applies it to the roster so far |
| CertificateRoutes.OwnMarksSnoc | server/routes/certificates.js:112-119 | one more update is taken by a participant iff it is addressed to its email |
| CertificateRoutes.ApplyMarksUnique | server/routes/certificates.js:112-119 | with unique roster emails, participant j ends up with exactly the updates addressed to its email |
| CertificateRoutes.OwnMarksSingle | server/routes/certificates.js:112-119 | a participant addressed by exactly one update ends up with that update |
| CertificateRoutes.OwnMarksNone | server/routes/certificates.js:112-119 | a participant addressed by no update is left as it was |
| CertificateRoutes.LayoutChoice | server/routes/certificates.js:68 | the request template, else the event's layout, else `classic` |
| CertificateRoutes.EffectiveLayout | server/routes/certificates.js:66-68 | the builder paints with the request template when truthy, otherwise with the event's stored layout |
| CertificateRoutes.RecordFor | server/routes/certificates.js:82-107 | the stored record copies the builder's uuid as id and as certificate number, its URL as QR data and verification URL, the participant snapshot, status `generated`, no attempts, and template used `template` or `classic` |
| CertificateRoutes.SavedRecords | server/routes/certificates.js:80-111 | at most one record per result |
| CertificateRoutes.Generation | server/routes/certificates.js:31-150 | 404/403 from the guards, 400 `No participants found for this event` iff the roster is empty; a rejection changes nothing; other events are untouched |
| CertificateRoutes.StoreResults | server/routes/certificates.js:80-121 | the loop stores one record per success, in order, and applies the roster updates |
| CertificateRoutes.GenerateCertificates | server/routes/certificates.js:31-150 | the handler's response and new collections are `Generation`'s |
| CertificateRoutes.CountFailedSnoc | server/routes/certificates.js:132 | one more result adds one failure iff it failed |
| CertificateRoutes.SavedPlusFailed | server/routes/certificates.js:128-132 | saved records plus failed results make up all results |
| CertificateRoutes.GenerationCounts | server/routes/certificates.js:126-132 | `certificatesGenerated + failed` equals the roster size, and the summary lists every stored record |
| CertificateRoutes.GeneratedOwn | server/routes/certificates.js:112-119 | with unique emails, a participant's own generation updates reduce to its own result |
| CertificateRoutes.GenerationMarksRoster | server/routes/certificates.js:112-119 | with unique emails, a participant becomes `generated` with its uuid iff its render succeeded, and is unchanged otherwise |
| CertificateRoutes.RosterMarksGenerated | server/routes/certificates.js:112-119 | with unique emails, entry j of the roster is marked with its own render's uuid iff that render saves, and is unchanged otherwise |
| CertificateRoutes.SavedRecordsShape | server/routes/certificates.js:80-110 | every saved record comes from a successful render of a roster entry |
| CertificateRoutes.NewRecordShape | server/routes/certificates.js:80-110 | the record saved for the k-th render is a `generated`, never-attempted certificate of the event, carrying that render's uuid as id and number, the participant's email and the verification URL of its number |
| CertificateRoutes.StoredFromWider | server/routes/certificates.js:80-110 | a record that comes from one of the first k renders also comes from one of the first k+1 |
| CertificateRoutes.GenerationRecords | server/routes/certificates.js:80-111 | old records are kept; the new ones follow, are the summary's, and each embeds the CERT number of a successful draw |
| CertificateRoutes.Contacts | server/routes/certificates.js:196 | the adapter sees each roster entry's name and email, in order |
| CertificateRoutes.Slots | server/routes/certificates.js:197 | every record becomes a successful slot with its file path, in store order |
| CertificateRoutes.FirstCertificate | server/routes/certificates.js:204 | the first record of the event with the email, or none |
| CertificateRoutes.Attempted | server/routes/certificates.js:206-209 | status `sent` or `failed`, attempts + 1, last attempt now, the delivery method; nothing else changes |
| CertificateRoutes.RecordSend | server/routes/certificates.js:203-211 | only the first matching record takes the attempt; without one nothing changes |
| CertificateRoutes.RecordSends | server/routes/certificates.js:203-211 | recording keeps the number of records |
| CertificateRoutes.SendMarks | server/routes/certificates.js:213-219 | one roster update per send result, `sent` or `failed`, in order |
| CertificateRoutes.CountSuccesses | server/routes/certificates.js:224 | at most one success per result |
| CertificateRoutes.CountFailures | server/routes/certificates.js:225 | at most one failure per result |
| CertificateRoutes.SuccessesPlusFailures | server/routes/certificates.js:224-225 | successes and failures together count every result |
| CertificateRoutes.Sending | server/routes/certificates.js:155-250 | 404/403 from the guards, 400 `No certificates found. Please generate certificates first.` iff the event has none; a rejection changes nothing; sizes are kept and other events untouched |
| CertificateRoutes.RecordResults | server/routes/certificates.js:203-220 | the loop records each result on its certificate and on the roster |
| CertificateRoutes.SendCertificates | server/routes/certificates.js:155-250 | the handler's response and collections are `Sending`'s, and the transport receives exactly `SendingMails` |
| CertificateRoutes.SendCounts | server/routes/certificates.js:224-233 | `sent + failed` equals the number of results, one per roster entry |
| CertificateRoutes.SendAlignedByPosition | server/routes/certificates.js:195-200 | result j names roster entry j; beyond the event's record count it is `Certificate generation failed`; otherwise success iff its address is accepted |
| CertificateRoutes.AlignedMails | server/services/emailService.js:87-94 | with all-success slots the adapter mails the first min(participants, slots) entries, entry i to participant i's address with file i attached |
| CertificateRoutes.SendMailsByPosition | server/routes/certificates.js:195-200 | participant i is mailed the i-th record's file, whoever that record belongs to |
| CertificateRoutes.SendMirrorsRoster | server/routes/certificates.js:213-219 | with unique emails, each participant's status becomes `sent` or `failed` as its own result says |
| CertificateRoutes.RosterMirrorsResults | server/routes/certificates.js:213-219 | with unique emails, roster entry j is marked `sent` or `failed` as result j says |
| CertificateRoutes.TotalAttemptsUpdate | server/routes/certificates.js:207 | replacing one record changes the total attempts by the difference |
| CertificateRoutes.FirstCertificateKeys | server/routes/certificates.js:204 | the first-match search depends only on records' events and emails, which an update keeps |
| CertificateRoutes.RecordSendsAccounting | server/routes/certificates.js:203-211 | other events' records are untouched, and total attempts grow by the number of results that found a record |
| CertificateRoutes.SendAttempts | server/routes/certificates.js:203-211 | a send adds exactly one attempt per matched result and touches no other event's records |
| CertificateRoutes.FindCertificate | server/routes/certificates.js:311 | the first record with the id, or none |
| CertificateRoutes.Verify | server/routes/certificates.js:307-343 | found iff some record has the id; otherwise 404 `Certificate not found or invalid` |
| CertificateRoutes.DownloadName | server/routes/certificates.js:370 | `Certificate_` + the name with whitespace runs as `_` + `.pdf`, without whitespace |
| CertificateRoutes.Download | server/routes/certificates.js:348-379 | 404 `Certificate not found` without a record, 404 `Certificate file not found` when its file is absent, otherwise the file and download name |
| DashboardRoutes.EventsOf | server/routes/dashboard.js:21 | exactly the organizer's events, in stored order: an event is kept iff its organizer is the user |
| DashboardRoutes.IdsOf | server/routes/dashboard.js:26 | the ids of exactly the given events, position by position |
| DashboardRoutes.CertificatesIn | server/routes/dashboard.js:25-27 | exactly the records whose event is one of the given ids, in stored order |
| DashboardRoutes.TotalParticipantsByStatus | server/routes/dashboard.js:22 | the summed roster lengths equal the summed per-status counts |
| DashboardRoutes.CountEventStatus | server/routes/dashboard.js:16-18 | a per-status event count never exceeds the event count |
| DashboardRoutes.EventStatusPartition | server/routes/dashboard.js:16-18 | the four per-status event counts add up to the total |
| DashboardRoutes.Stats | server/routes/dashboard.js:11-94 | each count is that of the organizer's events or of their certificates: events, active, completed, participants summed over rosters, certificates, `sent`, `delivered`; active + completed ≤ total; sent + delivered ≤ total; the rate is the rounded percentage of delivered over total and at most 100 |
| DashboardRoutes.CertificateStatsOf | server/routes/dashboard.js:123-130 | each field counts the records of its status, and the five add up to the total |
| DashboardRoutes.ParticipantStatsOf | server/routes/dashboard.js:140-148 | each field counts the participants of its status, `withCertificates + pending` is the total, and so are the five statuses |
| DashboardRoutes.DeliveryMethodsOf | server/routes/dashboard.js:151-155 | each field counts the records of its delivery method, and the three add up to the certificate total |
| DashboardRoutes.EventAnalytics | server/routes/dashboard.js:99-180 | 404/403 from the guards; otherwise the certificate, roster and delivery-method tallies of exactly the event's records and roster |
| DashboardRoutes.FailedDeliveries | server/routes/dashboard.js:251 | only `failed` or `bounced` records, at most every record (completeness is `FailedDeliveriesExact`) |
| DashboardRoutes.FailedDeliveriesExact | server/routes/dashboard.js:251-271 | exactly the certificates whose status is `failed` or `bounced`, counted as the sum of the two |
| DashboardRoutes.PerformanceOf | server/routes/dashboard.js:230-282 | generated, sent (`sent` or `delivered`), delivered and failed are those of the organizer's certificates; delivered ≤ sent ≤ total; the rate is 0 when nothing was sent, otherwise `round(100 · delivered / sent)` and at most 100 |
| DashboardRoutes.PerformanceFailures | server/routes/dashboard.js:251-260 | the failed count is failed plus bounced |
| DashboardRoutes.TrendsExact | server/routes/dashboard.js:55-62 | a date has a bucket iff a certificate was created that day; its counters are the per-status counts and add up to that day's certificates |
| DashboardRoutes.TrendsDomain | server/routes/dashboard.js:55-62 | the trends map has a key for a date iff some certificate was created that day |
| DashboardRoutes.TrendsCounts | server/routes/dashboard.js:55-62 | each day's bucket holds the per-status counts of that day's certificates |
| DashboardRoutes.CreatedOnSplit | server/routes/dashboard.js:55-62 | per day, the five per-status counts add up to the certificates created that day |
| DashboardRoutes.NoneCreatedOn | server/routes/dashboard.js:55-62 | a day without certificates counts nothing |
| DashboardRoutes.Since | server/routes/dashboard.js:49-52 | exactly the certificates created at or after the cut-off, in stored order |
| DashboardRoutes.Recent | server/routes/dashboard.js:45-52 | a certificate is in the trend input iff it is stored, created in the last 30 days, and belongs to an event of the organizer |
| DashboardRoutes.CountByDay | server/routes/dashboard.js:55-62 | the buckets the `forEach` builds are the trends of all its input |
| DashboardRoutes.DeliveryTrends | server/routes/dashboard.js:45-62 | the loop's buckets are the trends of `Recent` |
| EventRoutes.PriceOf | server/routes/events.js:48 | 0 for `free`, otherwise the given price or the default 0 |
| EventRoutes.MergeTemplate | server/routes/events.js:50-58 | supplied fields override the defaults; a layout must be one of the three |
| EventRoutes.MergeSettings | server/routes/events.js:59-67 | without settings the subject is `Your Event Certificate - ` + title; a supplied email template replaces the default whole, its missing fields falling back to the schema defaults |
| EventRoutes.CreateEvent | server/routes/events.js:27-87 | accepted iff title, description, date, location, type and layout pass the schema checks; the event is valid, owned by the caller, stores the trimmed title, description and location, the given date and type and `now` as creation time, and is a draft with an empty roster and the defaults |
| EventRoutes.Matching | server/routes/events.js:95-98 | exactly the organizer's events with the queried status when one is given, in stored order |
| EventRoutes.ListEvents | server/routes/events.js:92-126 | fails with 500 iff the skip `(page - 1) · limit` is negative, i.e. page < 1 with a positive limit; otherwise `total` is the match count, `pages = ceil(total / limit)` (none for limit 0), and the page is exactly the matches from the skip on, `limit` of them or the rest |
| EventRoutes.Window | server/routes/events.js:101-102 | the page window holds at most `limit` events, exactly `limit` or the rest for a non-negative skip, is non-empty iff `skip` is inside the list, and entry i is event `skip + i` |
| EventRoutes.PageNonEmpty | server/routes/events.js:99-116 | with a positive limit, a page has events iff its number is at most the page count |
| EventRoutes.NewEntries | server/routes/events.js:278-293 | at most one new entry per input, each valid and `pending` |
| EventRoutes.NewEntriesExact | server/routes/events.js:278-293 | the new entries are exactly the inputs with truthy name and email, each stored `pending` with phone defaulting to `''` |
| EventRoutes.AddParticipants | server/routes/events.js:249-316 | 400 `Participants array is required` before the lookup, 404/403, 400 `No valid participants found`; otherwise the entries are appended and `currentParticipants` is the new length |
| EventRoutes.AddParticipantsTo | server/routes/events.js:249-316 | the handler's response and events are `AddParticipants`'s; certificates are untouched |
| EventRoutes.AddKeepsRoster | server/routes/events.js:295-296 | existing participants are kept in place, the new ones follow in order, and a valid event stays valid |
| EventRoutes.RosterOf | server/routes/events.js:321-353 | 404/403 from the guards; otherwise the event's roster, with each status field the count of its status, adding up to the roster length |
| EmailRoutes.BulkMail | server/routes/email.js:77-90 | the mail goes to the address from `EventEye Test`, has the given subject and carries subject and message in its body |
| EmailRoutes.BulkMails | server/routes/email.js:73-105 | one mail per address |
| EmailRoutes.BulkEntries | server/routes/email.js:73-108 | one entry per address |
| EmailRoutes.BulkEntriesAligned | server/routes/email.js:93-104 | entry i names address i; sent, with its id, exactly when the transport accepts; otherwise it holds the error, and later addresses are still mailed |
| EmailRoutes.CountSent | server/routes/email.js:116 | at most one per entry |
| EmailRoutes.CountUnsent | server/routes/email.js:117 | at most one per entry |
| EmailRoutes.SentPlusUnsent | server/routes/email.js:116-117 | sent plus failed is the number of entries |
| EmailRoutes.SentIsAccepted | server/routes/email.js:116 | the number sent is the number of addresses the transport accepts |
| EmailRoutes.BulkEmail | server/routes/email.js:52-137 | 400 `Recipients array is required` when missing or empty, then 400 `Subject and message are required`; otherwise `sent + failed = total = recipients.length` |
| EmailRoutes.SendRange | server/routes/email.js:74-108 | a batch extends entries and mails in address order |
| EmailRoutes.SendBulkEmail | server/routes/email.js:52-137 | the response is `BulkEmail`'s; a refused request sends nothing; one mail per address in order, in batches of 5, with a 1000 ms pause only between batches |
| EmailRoutes.SmtpProbe.Verify | server/routes/email.js:153 | the connection check answers its fixed outcome and is counted |
| EmailRoutes.Status | server/routes/email.js:142-171 | configured iff EMAIL_USER and EMAIL_PASS are both set; `active` with the ready message iff configured and the check passes, `error` with the check's message when it fails, `not_configured` with its message otherwise |
| EmailRoutes.EmailStatus | server/routes/email.js:142-181 | the connection is checked once when configured and never otherwise |
| Text.Or | server/routes/certificates.js:68 | `a \|\| b` on strings: the first when non-empty |
| Text.Trim | server/models/Event.js:4-29 | trimming never lengthens the text; that it removes exactly the outer whitespace is `Text.TrimmedHasNoOuterSpace` |
| Text.TrimStart | server/models/Event.js:7 | dropping leading whitespace leaves a text that is empty or starts with a non-space, never longer; that it is a suffix after whitespace only is `Text.TrimStartIsSuffix` |
| Text.TrimStartIsSuffix | server/models/Event.js:7 | the result is a suffix of the input, and every character dropped before it is whitespace |
| Text.TrimEnd | server/models/Event.js:7 | dropping trailing whitespace leaves a text that is empty or ends with a non-space, never longer; that it is a prefix before whitespace only is `Text.TrimEndIsPrefix` |
| Text.TrimEndIsPrefix | server/models/Event.js:7 | the result is a prefix of the input, and every character dropped after it is whitespace |
| Text.TrimIdentity | server/models/Event.js:7 | a text without outer whitespace is unchanged by trimming |
| Text.TrimmedHasNoOuterSpace | server/models/Event.js:8 | trimming keeps a slice `s[i..j]` with no leading or trailing whitespace, and every character before i and from j on is whitespace, so only outer whitespace is removed |
| Text.TrimIdempotent | server/models/Event.js:8 | trimming twice is trimming once |
| Text.ReplaceSpaceRunsNoSpace | server/services/emailService.js:56 | replacing each whitespace run by a whitespace-free string leaves no whitespace |
| Text.ReplaceSpaceRunsIdentity | server/services/emailService.js:56 | a text without whitespace is unchanged |
| Text.ReplaceAllAbsent | server/services/emailService.js:119-123 | replacing a pattern that does not occur changes nothing |
| Text.ReplaceAllUntouched | server/services/emailService.js:118-123 | a text without the pattern's first character is left as it is |
| Text.ReplaceAllSelf | server/services/emailService.js:118-123 | replacing a pattern by itself changes nothing |
| Text.ReplaceAllSkipsPrefix | server/services/emailService.js:118-123 | a prefix without the pattern's first character is kept, and the rest is replaced on its own |
| Text.ReplaceAllLeading | server/services/emailService.js:118-123 | a leading occurrence is replaced, and the rest is replaced on its own |
| Text.ReplaceAllSkipsOther | server/services/emailService.js:118-123 | a text that differs from the pattern early and holds no later start of it is passed over whole |
| Text.ReplaceEachAbsent | server/services/emailService.js:118-123 | a text containing none of the patterns is unchanged by the whole list |
| Text.ReplaceEachSkipsPrefix | server/services/emailService.js:118-123 | a `{`-free prefix is kept by every placeholder substitution |
| Text.ReplaceEachReplaces | server/services/emailService.js:118-123 | a placeholder after `{`-free text, told apart from those before it in the list, becomes its value; the rest is processed on its own |
| Text.DigitsOnly | server/services/whatsappService.js:186 | stripping non-digits leaves only digits |
| Text.DigitsOnlyOfDigits | server/services/whatsappService.js:186 | a digit string is unchanged by stripping |
| Text.DigitsOnlyNoDigits | server/services/whatsappService.js:186 | a text with no digit strips to the empty string |
| Text.ToUpper | server/services/certificateGenerator.js:221 | upper-casing keeps the length |
| Text.Utf16Length | server/models/Event.js:8-14 | JavaScript's `length`: between one and two units per character, one each without astral characters, two each with only astral ones |
| Tally.CeilDiv | server/routes/events.js:110 | `q` is the least whole number with `n ≤ q · d` |
| Tally.RoundedPercent | server/routes/dashboard.js:244 | 0 for an empty whole; otherwise the nearest whole percentage, halves up; at most 100 for a part of the whole |

## Left out

- Persistence: Mongoose, `populate`, `_id`/ObjectId fields, `timestamps`
  and indexes. Events and certificates are plain sequences. Events are
  looked up by a string id and certificates by their event's id.
- Save failures are not modelled. This includes a duplicate `certificateId`,
  which the unique index would refuse. The route's 500 path for such errors
  is not modelled either.
- CertificateRoutes.SendRequest: `deliveryMethod` is taken as one of the
  schema's values. In the source any string is accepted. An unknown one
  makes the first `certificate.save()` throw after every mail has gone out,
  so the route answers 500 with no record updated. That save failure is not
  modelled.
- The `auth` middleware, `multer` uploads and the upload-template route.
- `fs.access`, which is modelled as a set of existing paths.
- Unmodelled routes:
  - `GET/PUT/DELETE /api/events/:id`
  - `GET /api/certificates/event/:eventId`
  - `GET /api/dashboard/certificates/recent`
  - `POST /api/email/test`
  - all of `server/routes/whatsapp.js`, which is thin wrappers over the
    orchestrator
- Sorting: newest-first event listing, oldest-first trend input, the
  delivery timeline order. Listings are in store order. `recentEvents` and
  `deliveryTimeline` are not modelled.
- `averageDeliveryAttempts` (floating point) and the constant `systemUptime`
  and `averageGenerationTime` strings.
- Tally.RoundedPercent: uses exact rational round-half-up, not IEEE
  `Math.round` of a float quotient. The two can differ only where float
  rounding misplaces an exact half.
- DashboardRoutes.Trends: a date key is `createdAt` divided by the
  milliseconds of a day, not an ISO date string. A new bucket starts with
  all five counters. In the source, a bucket starts with `generated`, `sent`
  and `delivered`, and gets a `failed` or `bounced` key on first use.
- DashboardRoutes.DeliveryTrends: the 30-day window is a fixed
  30 × 86 400 000 ms. It is not a calendar-day `setDate` in local time.
- EventRoutes.CreateEvent: reports the first failing path in schema order.
  Mongoose collects every failing path into one error, which the route turns
  into a 500.
- EventRoutes.CreateEvent: field casting is not modelled. Examples are a
  number given for a string field, or mongoose rejecting an unparsable date.
  The organizer is taken as a non-empty id.
- EventRoutes.ListEvents: `page` and `limit` are taken as already parsed
  integers, and `limit` as non-negative. For a limit of 0,
  `Math.ceil(total / 0)` is `Infinity` when there are matches and `NaN` when
  there are none. Both serialise to JSON as `null`, and the model writes
  both as no page count.
- EventRoutes.AddParticipantsTo: the 500 for a failed save is not modelled.
  Neither is the schema re-validating unrelated event fields on save.
- One `now` stands for every `new Date()` within one request. One
  `timeText` stands for every per-mail time rendering of a bulk request.
- `Promise.all` concurrency within a batch is not modelled. Batches run
  sequentially, and a pause is a trace event, not elapsed time.
- Rendering and I/O that become inputs or oracles:
  - PDF and QR painting, and the uploads directory, are a render-outcome
    oracle.
  - `Date.now`, `Math.random`, `uuidv4` and locale rendering of dates are
    inputs.
  - The nodemailer transport setup and its mock fallback are an oracle.
  - The whatsapp-web.js client and puppeteer start-up are an oracle.
  - Console logging, including the `authenticated`/`auth_failure` handlers,
    which only log, is left out.
- EmailService.FillPlaceholders: the source's `$` patterns in replacement
  values (`$&`, `$1`) are not modelled. Replacement text is inserted
  literally.
- EmailService.FillPlaceholdersReplaces: states the replacement of a
  placeholder only for values free of `{` and for text before it free of
  `{`. Text outside those conditions is covered only by the worked case
  EmailService.SubstitutionsApplyInOrder.
- EmailService.SubstitutionsApplyInOrder: a single worked input, showing
  that the substitutions run in order over the previous result. The general
  statements are EmailService.FillPlaceholdersInSequence and
  Text.ReplaceEachReplaces.
- WhatsAppService.FormatPhoneNumberExample: a single worked input. The
  general statements are WhatsAppService.FormatPhoneNumberShape and
  WhatsAppService.FormatPhoneNumberDigits.
- The default HTML body is abbreviated to the fields it interpolates, in
  their order.
- EmailRoutes.BulkMail: the html template literal's
  newlines and indentation are dropped. The model keeps the interpolated
  fields and the fixed text between them, in their order.
- MessagingService.MessagingServiceState.Outcome: `success` is a boolean. In the source,
  `(email && email.success) || (whatsapp && whatsapp.success)` is `null`
  when the chat result is `null` and the e-mail leg did not succeed. The
  model writes that falsy value as `false`.
- WhatsAppService.ChatClient.IsRegistered: always answers. The source's
  `isRegisteredUser` can reject, which the send would catch like any other
  error.
- WhatsAppService.ChatClient.SendDocument: a refusal is keyed by chat id.
  In the source the document step can also fail in
  `MessageMedia.fromFilePath` on an unreadable path, whatever the recipient.
- CertificateModel: the schema's required paths and the `unique` index on
  `certificateId` are not checked on save. Records are built by
  CertificateModel.NewCertificate, which fills every default.
- EmailService.Transport.SendMail: a message id is the mail's position in
  the transport's log, a stand-in for the SMTP id.
- MessagingService.BatchSizeOf: this is the corrected size. A
  `batchSize` of 0 or less falls back to 5. The source keeps a negative size
  (see Findings). A fractional or non-number size is not modelled.
- EmailRoutes.BulkEmail: the response's `message` text, `Bulk email
  completed. n sent, m failed.`, is not modelled. Its two numbers are the
  summary's `sent` and `failed`, which are.
- EmailRoutes.Status: the port is the string `"587"` when unset; the
  source answers the number 587.

## Findings

| source | as written | input that shows it | evidently intended | confidence | as-written member | corrected member |
|---|---|---|---|---|---|---|
| server/services/messagingService.js:64-66 | the fallback to 5 applies only to a falsy size, so a negative size is kept, and the loop adds it to `i` | `batchSize: -1` with one participant: `i` is 0, -1, -2, … and stays below the roster length in every round (`MessagingService.NegativeBatchSizeNeverEnds`) | a positive batch size, with 5 for anything else | not executed | MessagingService.SourceBatchSize | MessagingService.BatchSizeOf |

The orchestrator's bulk send uses the corrected size. It agrees with the
written one for every size of 0 or more (`MessagingService.BatchSizeAgrees`).

The behaviours listed above under "Behaviour kept as written" also look
unintended. They are not claimed as findings, and each is modelled as the
code does it:

- the verification URL and the stored ids use different numbers;
- `phoneNumber` is read where the roster stores `phone`;
- certificate files are paired with participants by position.
