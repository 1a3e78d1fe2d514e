# geotoyWeb order console — a Dafny model

geotoyWeb is the web console of a small custom-painting workshop. Orders move
through five stages: `novo`, `producao`, `finalizado`, `enviado` and
`feedback`. Staff move an order by dragging its card across a kanban board.
Every move first shows a dialog that e-mails the customer (with attachments
and, for `enviado`, a tracking code) and then patches the order's status.
Orders are created from a PDF work order, and edited in a details dialog. A
dashboard counts orders per stage, sums freight per carrier and revenue net of
freight, lists recent sales and ranks painters. It also has searchable,
paged tables of orders and of customer ratings, filtered by a date range that
the whole dashboard shares. Customers rate an order on a public page reached
from the e-mail. The console also has a login/register form and a dialog that
configures the sender address of the notification e-mails.

The model follows the code component by component:

- **State that a component updates in place** is a Dafny `class`. Its fields
  are the component's `useState` variables, and its methods are the event
  handlers, each with a `modifies` clause and a full description of the new
  state.
- **Asynchronous handlers** are split at the network call. A request the
  handler sends is *returned* in issue order. The answer the server gives is
  a *parameter* (`Outcome`, an `Option` of a failure, or a result datatype).
  A handler that awaits is therefore a `Click…`/`Begin…` method followed by a
  `Finish…` method.
- **Pure helpers** (formatting, filtering, counting, date arithmetic) are
  functions, with lemmas relating them to an independent statement of what
  they compute.
- **Loops of the source** (`forEach` over orders, the painter scan, the
  form-building loops) are methods with `while` loops proved against those
  functions.
- **Clocks** are parameters: `now`, a `DateTime`, or milliseconds since the
  epoch.
- **Parsers the platform supplies** are parameters too: `parseFloat`,
  `parseInt`, `Number`, `parseISO`/`isValid` and `Date` parsing. Each answers
  `None` when the text does not parse.
- **Locale-dependent rendering** (`toLocaleString`, `toLocaleDateString`) is
  kept as structured values rather than text.

Modules:

| module | source |
|---|---|
| `Wrappers`, `Strings`, `Js` | `Option`/`Outcome`; the string operations the code uses (`split`, `join`, `toLowerCase`, `includes`, `trim`, `replace(/\D/g)`); the loosely typed JavaScript values the code reads (truthiness, `Number`, `parseFloat`, `String`) |
| `Orders`, `Forms`, `Ui`, `OrderApi` | the `Order` record and its status keys; `FormData`; toasts; the requests the board sends |
| `Kanban` | the five-column board `src/pages/ordens/ordens.tsx` |
| `RoutedBoard` | the older four-column board `src/pages/ordens.tsx` |
| `ConfirmDialog` | `src/components/ConfirmarEnvioDialog.tsx` |
| `Sessions` | the five-column board and the dialog it mounts, put together as one page |
| `Format` | `src/utils/format.ts` |
| `CreateOrder`, `OrderDetails` | `CriarPedidoDialog.tsx`, `VerDetalhesDialog.tsx` |
| `Dashboard`, `RecentSales` | `src/pages/dashboard/dashboard.tsx`, `overview/recent-sales.tsx` |
| `Calendar`, `DateFilterContext`, `DateFilterUi` | calendar arithmetic; `DateFilterContext.tsx`; `ui/date-filter.tsx` |
| `Paging`, `TableFilters` | the "Mostrando a de" pager the three panels share; the two table filters |
| `OrdersPanel`, `SamplePanel`, `FeedbackPanel`, `Painters` | the four dashboard panels |
| `RatingPages`, `Login`, `EmailConfig` | the two rating pages, the login form, the sender configuration dialog |

## Model

| member | source | states |
|---|---|---|
| Js.Number.Plus | src/components/CriarPedidoDialog.tsx:92-96 | the sum of two numbers is a number exactly when both are; NaN otherwise |
| Js.StrOrEmpty | src/components/email-remetente/email-config-dialog.tsx:29 | a string value reads as itself, anything else as "" |
| Js.ToNumber | src/components/VerDetalhesDialog.tsx:79-81 | `Number(v)`: undefined is NaN, a number is itself, blank text is 0 |
| Js.ParseFloat | src/utils/format.ts:16 | `parseFloat(v)`: a number is itself, "" is NaN |
| Js.ToString | src/components/CriarPedidoDialog.tsx:142 | `String(v)` of a string is the string |
| Js.Get | src/components/CriarPedidoDialog.tsx:141 | a key absent from the record reads as undefined |
| Strings.Split | src/components/VerDetalhesDialog.tsx:78 | `split` always yields at least one piece |
| Strings.JoinSplit | src/components/VerDetalhesDialog.tsx:54 | joining the pieces of a split with the same separator gives the text back |
| Strings.SplitJoin | src/components/VerDetalhesDialog.tsx:54 | splitting a join of separator-free pieces gives the pieces back |
| Strings.SplitPiecesFree | src/utils/format.ts:37 | no piece of a split contains the separator |
| Strings.SplitLength | src/utils/format.ts:48 | a split has one piece more than the separator's occurrences |
| Strings.SplitFirstPrefix | src/components/VerDetalhesDialog.tsx:186 | `split("T")[0]` is a prefix without the separator, and the whole text when the separator is absent |
| Strings.JoinLength | src/components/dashboard/overview/recent-sales.tsx:48-51 | the length of a join is the pieces' lengths plus one per separator |
| Strings.ContainsPrefixOfQuery | src/components/dashboard/pedidos/data-table-view.tsx:29-30 | a text containing `q + ext` contains `q` |
| Strings.Lower | src/components/dashboard/pedidos/data-table-view.tsx:25 | the definition of `toLowerCase` for ASCII capitals and U+00C0 to U+00DE, character by character; what it promises is proved in Strings.LowerAppend and Dashboard.CountKeyIgnoresCase |
| Strings.Upper | src/components/dashboard/overview/recent-sales.tsx:52 | the definition of `toUpperCase` for ASCII small letters and U+00E0 to U+00FE, character by character; used by RecentSales.InitialsOfName |
| Strings.LowerAppend | src/components/dashboard/pedidos/data-table-view.tsx:25 | lower-casing distributes over concatenation |
| Strings.TrimStart | src/pages/dashboard/dashboard.tsx:74 | the trimmed text is no longer and starts with a non-space |
| Strings.TrimEnd | src/pages/dashboard/dashboard.tsx:74 | the trimmed text is no longer and ends with a non-space |
| Strings.DigitsOf | src/utils/format.ts:64 | `replace(/\D/g, "")` keeps only digits |
| Strings.DigitsOfAppend | src/utils/format.ts:64 | removing non-digits distributes over concatenation |
| Strings.DigitsOfAllDigits | src/utils/format.ts:64 | a digit-only text is unchanged |
| Strings.NatToString | src/components/ui/date-filter.tsx:109 | a decimal numeral is non-empty and all digits |
| Strings.NatToStringValue | src/components/ui/date-filter.tsx:109 | the numeral reads back as the number |
| Strings.NatToStringInjective | src/components/ui/date-filter.tsx:109 | different numbers print differently |
| Strings.PadNatExact | src/components/ui/date-filter.tsx:109 | a zero-padded field of a fitting number has exactly the width, all digits, and reads back as the number |
| Forms.FileEntries | src/components/ConfirmarEnvioDialog.tsx:66-68 | the definition of the entries `append` adds for a list of files; Forms.AppendFiles proves the loop builds it and Forms.GetAllFiles that they read back in order |
| Forms.TextEntries | src/components/CriarPedidoDialog.tsx:168-170 | the definition of the entries `append` adds for a list of texts; Forms.AppendTexts proves the loop builds it and Forms.GetAllTexts that they read back in order |
| Forms.GetAll | src/components/ConfirmarEnvioDialog.tsx:57-68 | `getAll(key)` returns at most as many values as there are entries |
| Forms.GetAllAppend | src/components/ConfirmarEnvioDialog.tsx:57-68 | `getAll` of two concatenated forms is the two results concatenated |
| Forms.GetAllEmpty | src/components/ConfirmarEnvioDialog.tsx:57-68 | `getAll(key)` is empty exactly when the form lacks the key |
| Forms.GetAllFiles | src/components/ConfirmarEnvioDialog.tsx:66-68 | the files appended under a key are read back in order |
| Forms.GetAllTexts | src/components/CriarPedidoDialog.tsx:168-170 | the texts appended under a key are read back in order |
| Forms.GetAllOtherKey | src/components/ConfirmarEnvioDialog.tsx:66-68 | entries appended under one key are invisible under another |
| Forms.AppendFiles | src/components/ConfirmarEnvioDialog.tsx:66-68 | the append loop adds exactly the file entries |
| Forms.AppendTexts | src/components/CriarPedidoDialog.tsx:168-170 | the append loop adds exactly the text entries |
| Orders.ParseStatus | src/types/order.ts:2-8 | a status key is recognised only when it is the key of that status |
| Orders.ParseStatusKey | src/types/order.ts:2-8 | every status's key parses back to the status |
| Orders.FindById | src/pages/ordens/ordens.tsx:167-177 | `find` by id: None iff no order has the id, else the first one that has it |
| Orders.PatchStatusChangesOne | src/pages/ordens/ordens.tsx:224-228 | with unique ids, the cache update changes exactly the moved order's status |
| Orders.PatchStatusAbsent | src/pages/ordens/ordens.tsx:224-228 | an unknown id leaves the cache unchanged |
| Orders.Column | src/pages/ordens/ordens.tsx:257-261 | a column holds only orders of the cache with its status |
| Orders.ColumnAppend | src/pages/ordens/ordens.tsx:257-261 | the column filter distributes over concatenation |
| Orders.ColumnMultiplicity | src/pages/ordens/ordens.tsx:257-261 | a column holds each order of its status as often as the cache does, and no order of another status |
| Orders.ColumnsMultiset | src/pages/ordens/ordens.tsx:117-147 | the five columns together hold the cache's orders with their multiplicities |
| Orders.ColumnsPartition | src/pages/ordens/ordens.tsx:117-147 | the five columns partition the cache: sizes add up and multisets add up to the cache |
| Orders.MoveCounts | src/pages/ordens/ordens.tsx:224-228 | a move takes one card out of the source column, adds one to the target and leaves the others |
| Orders.ColumnSplit | src/pages/ordens/ordens.tsx:257-261 | the column of `a + [x] + b` is the columns of the parts with `x` where it belongs |
| OrderApi.NotifyFormFields | src/pages/ordens/ordens.tsx:186-197 | the notification form holds the message, status, e-mail, tracking code (only when set) and each file under the file key |
| OrderApi.BuildNotifyForm | src/pages/ordens/ordens.tsx:186-197 | the statements that fill the form build exactly that form |
| OrderApi.LastSix | src/pages/ordens/ordens.tsx:230-238 | `id.slice(-6)` is the suffix of length min(6, length) |
| ConfirmDialog.DefaultText | src/components/ConfirmarEnvioDialog.tsx:27-32 | every stage but `feedback` has a default message |
| ConfirmDialog.MessageLines | src/components/ConfirmarEnvioDialog.tsx:43-45 | the initial message has the greeting, the stage text and the signature on their own lines |
| ConfirmDialog.MessageJoined | src/components/ConfirmarEnvioDialog.tsx:43-45 | the initial message is its five lines joined by line breaks |
| ConfirmDialog.FreeAround | src/components/ConfirmarEnvioDialog.tsx:43-45 | greeting and signature lines hold no line break when the names hold none |
| ConfirmDialog.PickerAccept | src/components/ConfirmarEnvioDialog.tsx:124-143 | a file picker shows exactly for `finalizado` and `enviado` |
| ConfirmDialog.ConfirmarEnvioDialog.constructor | src/components/ConfirmarEnvioDialog.tsx:34-48 | the mount opens with the props of that render, the stage's default message, no files, no tracking code, not sending |
| ConfirmDialog.ConfirmarEnvioDialog.Rerender | src/components/ConfirmarEnvioDialog.tsx:34-48 | a later render of the mounted dialog takes the new props and keeps `open`, the message, the files, the code and `enviando` |
| ConfirmDialog.ConfirmarEnvioDialog.EditMensagem | src/components/ConfirmarEnvioDialog.tsx:42-48 | only the message changes |
| ConfirmDialog.ConfirmarEnvioDialog.EditCodigoRastreio | src/components/ConfirmarEnvioDialog.tsx:111 | only the tracking code changes; the input exists only for `enviado` |
| ConfirmDialog.ConfirmarEnvioDialog.HandleFileChange | src/components/ConfirmarEnvioDialog.tsx:50-54 | a selection replaces the files, no selection keeps them |
| ConfirmDialog.ConfirmarEnvioDialog.FormFields | src/components/ConfirmarEnvioDialog.tsx:57-68 | the sent form has a tracking code iff `enviado` with a non-empty code, and exactly the chosen files under "arquivos" |
| ConfirmDialog.ConfirmarEnvioDialog.ClickEnviar | src/components/ConfirmarEnvioDialog.tsx:56-70 | only in the open dialog: while sending nothing is sent; otherwise the POST carries the form and sending starts |
| ConfirmDialog.ConfirmarEnvioDialog.FinishEnviar | src/components/ConfirmarEnvioDialog.tsx:70-86 | success confirms, toasts and closes; failure toasts and stays open; sending ends either way |
| ConfirmDialog.ConfirmarEnvioDialog.Close | src/components/ConfirmarEnvioDialog.tsx:42-48 | closing keeps everything the user entered |
| Kanban.CeilDiv | src/pages/ordens/ordens.tsx:74-85 | `Math.ceil(a / d)` is the least q with a <= q*d |
| Kanban.DaysRemaining | src/pages/ordens/ordens.tsx:74-85 | no estimate without a date, NaN when the date does not parse, else a day count |
| Kanban.GetDisplayInfo | src/pages/ordens/ordens.tsx:87-115 | delivered stages show "Entregue" in green; no estimate shows nothing; positive days pick red (urgent or <= 3), yellow (<= 7) or green; otherwise overdue in red. The board never calls it: the card renders Kanban.CardBadge |
| Kanban.CardBadge | src/pages/ordens/ordens.tsx:327-387 | shown iff an undelivered order has an estimate; "URGÊNCIA - " and red-300 iff urgent; "n DIAS RESTANTE!" iff the count is positive, else "ENTREGA ATRASADA!"; non-urgent colours red-400 up to 3 days, yellow-400 up to 7, green-400 beyond or for NaN |
| Kanban.CardBadgeMatchesDisplayInfo | src/pages/ordens/ordens.tsx:87-115 | the card's badge and `getDisplayInfo` agree in hue and message except for a non-urgent unparseable estimate, green on the card and red in `getDisplayInfo` |
| Kanban.KanbanBoard.constructor | src/pages/ordens/ordens.tsx:150-155 | empty cache, nothing pending, dialog hidden |
| Kanban.KanbanBoard.Load | src/pages/ordens/ordens.tsx:159-165 | the fetched orders replace the cache |
| Kanban.KanbanBoard.ColumnCount | src/pages/ordens/ordens.tsx:278 | the count shown is the column's size, at most the cache's size |
| Kanban.KanbanBoard.OnDragEnd | src/pages/ordens/ordens.tsx:167-177 | a drop outside, onto the same column or of an unknown card changes nothing; otherwise the move is recorded as pending and `showDialog` is set, cache untouched |
| Kanban.KanbanBoard.HandleConfirmacao | src/pages/ordens/ordens.tsx:179-247 | nothing without pending move or data; else the POST, then `/enviar` or the status PATCH; only when both succeed does exactly the moved order change and the pending move clear; a failure changes nothing |
| Kanban.KanbanBoard.Cancel | src/pages/ordens/ordens.tsx:474-478 | clears the pending move, cache untouched |
| RoutedBoard.RoutedColumnsPartition | src/pages/ordens.tsx:103-115 | the four columns partition every order whose status is one of theirs |
| RoutedBoard.OrdensPage.constructor | src/pages/ordens.tsx:35-38 | empty cache, nothing pending |
| RoutedBoard.OrdensPage.Load | src/pages/ordens.tsx:40-44 | the fetched orders replace the cache |
| RoutedBoard.OrdensPage.OnDragEnd | src/pages/ordens.tsx:46-56 | as on the newer board, over the four columns |
| RoutedBoard.OrdensPage.OnConfirmado | src/pages/ordens.tsx:161-176 | the dialog's callback sends one status PATCH; success moves exactly that order and clears the pending move; failure changes nothing |
| RoutedBoard.OrdensPage.HandleConfirmacao | src/pages/ordens.tsx:58-95 | the unused handler: POST with files under "anexos", then the PATCH; the cache changes only when both succeed |
| Sessions.OrdersScreen.constructor | src/pages/ordens/ordens.tsx:150-155 | empty cache, nothing pending, no dialog mounted |
| Sessions.OrdersScreen.Load | src/pages/ordens/ordens.tsx:159-165 | the fetched orders replace the cache and the mounted dialog is kept |
| Sessions.OrdersScreen.Drop | src/pages/ordens/ordens.tsx:466-479 | a dialog is created, open with the dropped order's message, only when none is mounted; a mounted dialog stays closed with the message of its mount |
| Sessions.OrdersScreen.ShippedConfirmation | src/components/ConfirmarEnvioDialog.tsx:79 | as shipped, a confirmed send posts only the dialog's own notification, leaves the cache and pending move unchanged, and the closed dialog stays mounted |
| Sessions.OrdersScreen.ShippedCancel | src/components/ConfirmarEnvioDialog.tsx:157 | as shipped, closing changes only the dialog's own `open`; the board is not told |
| Sessions.OrdersScreen.ShippedSecondDrop | src/pages/ordens/ordens.tsx:466-479 | as shipped, after the first send a later drop records the new move but leaves the one dialog closed, holding the first order's message |
| Sessions.MoveChangesCache | src/pages/ordens/ordens.tsx:224-228 | the intended move always changes the cache, so the shipped session never performs it |
| Sessions.OrdersScreen.CorrectedConfirmation | src/pages/ordens/ordens.tsx:179-247 | with the dialog's data handed over, success moves exactly the order, clears the pending move and unmounts the dialog, after the notification went out twice; a failed dialog send changes nothing |
| Sessions.OrdersScreen.CorrectedCancel | src/pages/ordens/ordens.tsx:474-478 | with `onCancelado` called, closing clears the pending move and unmounts the dialog |
| Sessions.OrdersScreen.CorrectedSecondDrop | src/pages/ordens/ordens.tsx:466-479 | with the corrections, a drop after a successful move opens a fresh dialog with the new order's message |
| Format.MaskedDigits | src/utils/format.ts:66-70 | the masked phone keeps exactly the digits |
| Format.DigitSlice | src/utils/format.ts:66-70 | each group cut from the digits is all digits |
| Format.PunctuatedDigits | src/utils/format.ts:66-70 | the mask's punctuation adds no digits |
| Format.NoDigits | src/utils/format.ts:64 | removing non-digits from digit-free text gives "" |
| Format.FormatPhone | src/utils/format.ts:62-73 | "" iff no phone; digits preserved; 10 digits give (DD) DDDD-DDDD, 11 give (DD) DDDDD-DDDD, other counts the input |
| Format.FormatPhoneIdempotent | src/utils/format.ts:62-73 | formatting a formatted phone changes nothing |
| Format.LayoutsDisjoint | src/utils/format.ts:36-47 | no text is both an ISO date prefix and an exact DD/MM/YYYY date |
| Format.SplitDigitsFree | src/utils/format.ts:37 | a digit run holds no separator |
| Format.FormatDate | src/utils/format.ts:32-58 | invalid exactly for missing, empty or unrecognised text; ISO gives its year, month and day pieces; DD/MM/YYYY its pieces |
| Format.IsoPieces | src/utils/format.ts:37 | the first three pieces of an ISO text are year, month and the day up to the next '-' |
| Format.BrazilianPieces | src/utils/format.ts:48 | a DD/MM/YYYY text splits into day, month and year |
| Format.FormatDateIsoExact | src/utils/format.ts:36-44 | a bare YYYY-MM-DD date renders its own day, month and year |
| Format.RemoveCurrencySymbol | src/utils/format.ts:12 | removing "R$" never lengthens the text |
| Format.NoSymbolUnchanged | src/utils/format.ts:12 | text without "R$" is unchanged |
| Format.RemoveCurrencySymbolDigits | src/utils/format.ts:12 | removing the symbol keeps every digit |
| Format.DropNonDigits | src/utils/format.ts:12 | dropping a leading "R$" or "R$ " drops no digit |
| Format.RemoveAll | src/utils/format.ts:13 | no '.' is left |
| Format.ReplaceFirst | src/utils/format.ts:14 | replacing one character keeps the length |
| Format.IndexOf | src/utils/format.ts:14 | the index of the first occurrence |
| Format.ReplaceFirstAbsent | src/utils/format.ts:14 | without ',' nothing is replaced |
| Format.ReplaceFirstAt | src/utils/format.ts:14 | only the first ',' becomes '.' |
| Format.CleanCurrencyPoint | src/utils/format.ts:11-14 | the cleaned text has one '.' exactly when a ',' remained, and none otherwise |
| Format.FormatCurrency | src/utils/format.ts:2-26 | falsy input gives "R$ 0,00"; a number is rendered; text is cleaned and parsed, NaN giving "R$ 0,00" |
| CreateOrder.OrZero | src/components/CriarPedidoDialog.tsx:92-95 | `v \|\| 0`: a truthy value is kept, anything else is 0 |
| CreateOrder.RemoveAt | src/components/CriarPedidoDialog.tsx:114-120 | an index in range drops exactly that position; any other index keeps the list |
| CreateOrder.ScalarEntriesAppend | src/components/CriarPedidoDialog.tsx:129-143 | the key loop's entries grow one key at a time |
| CreateOrder.ScalarEntriesKeys | src/components/CriarPedidoDialog.tsx:129-143 | each listed key appears once, with `String(value)`, when defined |
| CreateOrder.ScalarEntryKey | src/components/CriarPedidoDialog.tsx:140-143 | one key adds its `String(value)` under its own name when defined, and nothing under any other name |
| CreateOrder.ScalarEntriesAbsent | src/components/CriarPedidoDialog.tsx:129-143 | a key outside the list is never added by the loop |
| CreateOrder.AppendScalars | src/components/CriarPedidoDialog.tsx:129-143 | the `forEach` builds exactly those entries |
| CreateOrder.Reverse | src/components/CriarPedidoDialog.tsx:247 | `reverse` mirrors the positions |
| CreateOrder.JoinThree | src/components/CriarPedidoDialog.tsx:247 | joining three pieces puts the separator between each two |
| CreateOrder.SubmittedDateBrazilian | src/components/CriarPedidoDialog.tsx:155-167 | DD/MM/YYYY is submitted as YYYY-MM-DD |
| CreateOrder.DateInputMatchesSubmitted | src/components/CriarPedidoDialog.tsx:244-250 | for a three-piece date the date input shows what is submitted |
| CreateOrder.SubmittedDateRecognised | src/components/CriarPedidoDialog.tsx:155-167 | the submitted date is an ISO date the formatter renders with the same fields |
| CreateOrder.PrefixLacks | src/components/CriarPedidoDialog.tsx:129-152 | the listed and extra fields never use the observation, image or status keys |
| CreateOrder.ExtraLacks | src/components/CriarPedidoDialog.tsx:145-167 | the extra fields never use those keys |
| CreateOrder.NotListed | src/components/CriarPedidoDialog.tsx:129-140 | observation, image and status keys are not in the key list |
| CreateOrder.ExtraKeys | src/components/CriarPedidoDialog.tsx:145-167 | the extra fields use only "cliente", "produto" and "previsaoEntrega" |
| CreateOrder.CreateFormShape | src/components/CriarPedidoDialog.tsx:127-176 | a built form is the listed and extra fields, then the observation lines, the images and the status |
| CreateOrder.BuiltLinesEntries | src/components/CriarPedidoDialog.tsx:168-170 | after a prefix without the key, `getAll("observacao")` sees only the observation entries |
| CreateOrder.BuiltLines | src/components/CriarPedidoDialog.tsx:168-170 | `getAll("observacao")` gives one text per line, in order |
| CreateOrder.BuiltImages | src/components/CriarPedidoDialog.tsx:172-174 | `getAll("imagens")` gives the images in order |
| CreateOrder.BuiltStatus | src/components/CriarPedidoDialog.tsx:176 | `getAll("status")` gives "novo" once |
| CreateOrder.CreateFormObservations | src/components/CriarPedidoDialog.tsx:168-176 | the form carries one observation per line, each image in order, and status "novo" once |
| CreateOrder.BuildCreateForm | src/components/CriarPedidoDialog.tsx:127-176 | the statements of `criarPedido` build that form, or throw when the observation text is missing |
| CreateOrder.CriarPedidoDialog.constructor | src/components/CriarPedidoDialog.tsx:40-48 | closed, not urgent, no images, idle |
| CreateOrder.CriarPedidoDialog.HandleChange | src/components/CriarPedidoDialog.tsx:85-100 | the named field takes the value; freight or unit price also recompute the total as a float sum; nothing else changes |
| CreateOrder.CriarPedidoDialog.SetUrgente | src/components/CriarPedidoDialog.tsx:310-314 | only `urgente` changes |
| CreateOrder.CriarPedidoDialog.HandleImageChange | src/components/CriarPedidoDialog.tsx:102-112 | images and preview URLs grow together, keeping their pairing |
| CreateOrder.CriarPedidoDialog.HandleImageDelete | src/components/CriarPedidoDialog.tsx:114-120 | the same position leaves both lists |
| CreateOrder.CriarPedidoDialog.ClickCriar | src/components/CriarPedidoDialog.tsx:123-143 | nothing while sending; else the form is posted and sending starts, or the throw toasts and resets |
| CreateOrder.CriarPedidoDialog.FinishCriar | src/components/CriarPedidoDialog.tsx:186-195 | success toasts and closes; failure toasts; both flags clear either way |
| OrderDetails.ObservationText | src/components/VerDetalhesDialog.tsx:54 | no observations give "" |
| OrderDetails.ObservationRoundTrip | src/components/VerDetalhesDialog.tsx:54 | saving unedited observations sends the same lines back (or [""] when there were none) |
| OrderDetails.DateInputValue | src/components/VerDetalhesDialog.tsx:186 | the date input shows the part before 'T', a prefix of the stored text |
| OrderDetails.DisplayedTotal | src/components/VerDetalhesDialog.tsx:195-198 | the displayed total is freight plus unit price, NaN counted as 0 |
| OrderDetails.DisplayedTotalMatchesPayload | src/components/VerDetalhesDialog.tsx:73-84 | the total shown is the sum of the numbers sent whenever both parse |
| OrderDetails.VerDetalhesDialog.constructor | src/components/VerDetalhesDialog.tsx:52-58 | the form starts from the order with the observation text and the default e-mail |
| OrderDetails.VerDetalhesDialog.HandleChange | src/components/VerDetalhesDialog.tsx:63-68 | only the named field changes |
| OrderDetails.VerDetalhesDialog.PickPainter | src/components/VerDetalhesDialog.tsx:224-242 | only `pintor` changes and exactly the picked radio is checked |
| OrderDetails.VerDetalhesDialog.ClickSave | src/components/VerDetalhesDialog.tsx:70-86 | nothing while saving; else the PATCH carries the payload |
| OrderDetails.VerDetalhesDialog.FinishSave | src/components/VerDetalhesDialog.tsx:86-92 | the toast follows the outcome; loading ends |
| Dashboard.Statuses | src/pages/dashboard/dashboard.tsx:62-67 | the definition of the status list the counter walks; its promises are proved in Dashboard.CountStatuses and Dashboard.CountsPartition |
| Dashboard.KeyCount | src/pages/dashboard/dashboard.tsx:62-67 | a stage's count is at most the number of orders |
| Dashboard.Tally | src/pages/dashboard/dashboard.tsx:66 | a counted key adds one to the total; any other key changes nothing |
| Dashboard.CountsSnoc | src/pages/dashboard/dashboard.tsx:64-67 | one more order tallies its lower-cased key |
| Dashboard.CountsSnocTotal | src/pages/dashboard/dashboard.tsx:64-67 | one more order adds one to counted plus uncounted |
| Dashboard.CountStatuses | src/pages/dashboard/dashboard.tsx:62-69 | the `forEach` computes the per-stage counts |
| Dashboard.CountsStep | src/pages/dashboard/dashboard.tsx:64-67 | counted plus uncounted grows by one per order |
| Dashboard.CountsPartition | src/pages/dashboard/dashboard.tsx:62-69 | counted plus uncounted orders are all the orders |
| Dashboard.CountsAtMostOrders | src/pages/dashboard/dashboard.tsx:62-69 | the four counts add up to at most the order count |
| Dashboard.MissingStatusIsNovo | src/pages/dashboard/dashboard.tsx:65 | an order without status counts as `novo` |
| Dashboard.CountKeyIgnoresCase | src/pages/dashboard/dashboard.tsx:65 | the count ignores letter case |
| Dashboard.CalculateFreight | src/pages/dashboard/dashboard.tsx:71-79 | the loop sums freight per carrier |
| Dashboard.FreightPartition | src/pages/dashboard/dashboard.tsx:71-79 | SEDEX plus PAC plus other carriers is all freight |
| Dashboard.OtherCarrierAddsNothing | src/pages/dashboard/dashboard.tsx:74-76 | an order of another carrier adds to neither total |
| Dashboard.Revenue | src/pages/dashboard/dashboard.tsx:81-87 | no orders, no revenue |
| Dashboard.RevenueAppend | src/pages/dashboard/dashboard.tsx:81-87 | revenue is additive over order lists |
| Dashboard.RevenueIsGrossLessFreight | src/pages/dashboard/dashboard.tsx:81-87 | revenue is the total value less all freight |
| Dashboard.DashboardPage.constructor | src/pages/dashboard/dashboard.tsx:42-47 | seven days, no orders, zero counts and sums |
| Dashboard.DashboardPage.Loaded | src/pages/dashboard/dashboard.tsx:49-60 | the fetched orders with their counts, freight and revenue |
| Dashboard.DashboardPage.SetDias | src/pages/dashboard/dashboard.tsx:276-279 | only the day count changes |
| RecentSales.Kept | src/components/dashboard/overview/recent-sales.tsx:31-38 | only input orders created after the cutoff, with their parsed date |
| RecentSales.KeptComplete | src/components/dashboard/overview/recent-sales.tsx:31-38 | every order created after the cutoff is kept |
| RecentSales.Insert | src/components/dashboard/overview/recent-sales.tsx:39 | insertion adds exactly the element |
| RecentSales.InsertKeepsOrder | src/components/dashboard/overview/recent-sales.tsx:39 | insertion keeps the list newest first |
| RecentSales.SortNewestFirst | src/components/dashboard/overview/recent-sales.tsx:39 | the sort is a permutation and newest first |
| RecentSales.RecentWindow | src/components/dashboard/overview/recent-sales.tsx:27-39 | a sale is listed iff its order was created after `now - dias` days; the list runs newest first |
| RecentSales.EmptyMessage | src/components/dashboard/overview/recent-sales.tsx:69-73 | the message shows iff the list is empty |
| RecentSales.EmptyMessageIffNoneRecent | src/components/dashboard/overview/recent-sales.tsx:69-73 | the message shows iff no order falls in the window |
| RecentSales.FirstChars | src/components/dashboard/overview/recent-sales.tsx:48-51 | at most one character per word |
| RecentSales.FirstCharsOfWords | src/components/dashboard/overview/recent-sales.tsx:48-51 | non-empty words give their first characters |
| RecentSales.InitialsOfName | src/components/dashboard/overview/recent-sales.tsx:48-52 | a name of single-spaced words has one upper-cased initial per word |
| RecentSales.EmailText | src/components/dashboard/overview/recent-sales.tsx:58 | the e-mail, or "sem email" |
| RecentSales.AvatarNumber | src/components/dashboard/overview/recent-sales.tsx:46 | pictures 1 to 9, repeating, the first nine rows in order |
| Calendar.DaysInMonth | src/components/dashboard/DateFilter/DateFilterContext.tsx:66-70 | every month has 28 to 31 days |
| Calendar.DaysBeforeNextYear | src/components/dashboard/DateFilter/DateFilterContext.tsx:66-70 | day numbering advances by the year's length |
| Calendar.InstantOrder | src/components/dashboard/DateFilter/DateFilterContext.tsx:35-75 | instants order by day, then by time of day |
| Calendar.AtTime | src/components/dashboard/DateFilter/DateFilterContext.tsx:38-40 | `setHours` keeps the day and sets the time |
| Calendar.StartOfDay | src/components/dashboard/DateFilter/DateFilterContext.tsx:38 | midnight of the same day |
| Calendar.EndOfDay | src/components/dashboard/DateFilter/DateFilterContext.tsx:40 | 23:59:59.999 of the same day |
| Calendar.PrevDay | src/components/dashboard/DateFilter/DateFilterContext.tsx:44-45 | the day before at the same time, across months and years |
| Calendar.MinusDays | src/components/dashboard/DateFilter/DateFilterContext.tsx:53-54 | `n` days earlier at the same time |
| Calendar.FirstOfMonth | src/components/dashboard/DateFilter/DateFilterContext.tsx:67 | day 1 of the same month, midnight |
| Calendar.LastOfMonth | src/components/dashboard/DateFilter/DateFilterContext.tsx:68 | day 0 of the next month is the last day of this one, not before today |
| Calendar.LastOfMonthIsLast | src/components/dashboard/DateFilter/DateFilterContext.tsx:68 | the day after it is not in the month |
| DateFilterContext.FilterKeyInjective | src/components/dashboard/DateFilter/DateFilterContext.tsx:6 | the seven filter keys are distinct |
| DateFilterContext.PresetRange | src/components/dashboard/DateFilter/DateFilterContext.tsx:30-79 | presets give an ordered range (today, yesterday, 7 or 15 days back, this month, ending at end of day); range and specific give none |
| DateFilterContext.CalculateDateRange | src/components/dashboard/DateFilter/DateFilterContext.tsx:30-79 | the switch computes that range |
| DateFilterContext.DateFilterProvider.constructor | src/components/dashboard/DateFilter/DateFilterContext.tsx:23-27 | filter 7 days, no range |
| DateFilterContext.DateFilterProvider.Effect | src/components/dashboard/DateFilter/DateFilterContext.tsx:82-87 | a preset filter replaces the range with its own; range and specific keep it |
| DateFilterContext.DateFilterProvider.SetDateFilter | src/components/dashboard/DateFilter/DateFilterContext.tsx:23 | only the filter changes |
| DateFilterContext.DateFilterProvider.SetDateRange | src/components/dashboard/DateFilter/DateFilterContext.tsx:24-27 | only the range changes |
| DateFilterContext.UseDateFilter | src/components/dashboard/DateFilter/DateFilterContext.tsx:96-101 | outside a provider it throws its message, inside it yields the provider |
| DateFilterUi.SelectedRange | src/components/ui/date-filter.tsx:30-79 | each choice's range: today, yesterday, 7 or 15 days back to now, the month; range and specific keep the current dates |
| DateFilterUi.DateFilterControl.constructor | src/components/ui/date-filter.tsx:25-28 | no custom or specific date picked |
| DateFilterUi.DateFilterControl.HandleFilterChange | src/components/ui/date-filter.tsx:30-79 | sets the filter and range; the provider's effect then recomputes a changed preset |
| DateFilterUi.DateFilterControl.PickCustomStart | src/components/ui/date-filter.tsx:161 | only the custom start changes |
| DateFilterUi.DateFilterControl.PickCustomEnd | src/components/ui/date-filter.tsx:184 | only the custom end changes |
| DateFilterUi.DateFilterControl.PickSpecific | src/components/ui/date-filter.tsx:229 | only the specific date changes |
| DateFilterUi.DateFilterControl.HandleRangeApply | src/components/ui/date-filter.tsx:81-86 | with both dates the range and filter are set; else nothing changes |
| DateFilterUi.DateFilterControl.HandleSpecificApply | src/components/ui/date-filter.tsx:88-93 | with a date the one-day range and filter are set; else nothing changes |
| DateFilterUi.DisplayDateReadsBack | src/components/ui/date-filter.tsx:109-114 | a date shown as dd/MM/yyyy is recognised by the date formatter with its own fields |
| DateFilterUi.DisplayText | src/components/ui/date-filter.tsx:95-120 | the placeholder text `getDisplayText` computes for each filter, with the dates of a range or specific date when set |
| Paging.EndItemOf | src/components/dashboard/pedidos/DashboardPedidos.tsx:150-154 | the label's second number is the page end or the total, whichever is smaller |
| Paging.WindowNonEmpty | src/components/dashboard/pedidos/DashboardPedidos.tsx:150-154 | when the label's first number is within the total, the second is no smaller and less than a page further |
| Paging.NextPageHasRows | src/components/dashboard/pedidos/DashboardPedidos.tsx:272-282 | when "Próximo" is enabled the next label's first number is within the total |
| Paging.Pager.constructor | src/components/dashboard/pedidos/DashboardPedidos.tsx:31-35 | first page, no items |
| Paging.Pager.StartItem | src/components/dashboard/pedidos/DashboardPedidos.tsx:150 | the label's first number is at least 1 |
| Paging.Pager.EndItem | src/components/dashboard/pedidos/DashboardPedidos.tsx:151-154 | the label's second number is at most the total |
| Paging.Pager.SetTotal | src/components/dashboard/pedidos/DashboardPedidos.tsx:83-86 | the total changes and the page is kept |
| Paging.Pager.ClickPrevious | src/components/dashboard/pedidos/DashboardPedidos.tsx:261-271 | a page back unless on the first; a label within the total stays within it |
| Paging.Pager.ClickNext | src/components/dashboard/pedidos/DashboardPedidos.tsx:272-282 | a page forward unless the label ends at the total; a label within the total stays within it |
| TableFilters.Filter | src/components/dashboard/pedidos/data-table-view.tsx:27 | a filter never adds rows |
| TableFilters.FilterMembership | src/components/dashboard/pedidos/data-table-view.tsx:27 | a row is kept iff it is in the data and matches |
| TableFilters.FilterIsSubsequence | src/components/dashboard/pedidos/data-table-view.tsx:27 | the kept rows keep their order |
| TableFilters.FilterMonotone | src/components/dashboard/pedidos/data-table-view.tsx:27 | a stricter test keeps a subsequence |
| TableFilters.SafeText | src/components/dashboard/pedidos/data-table-view.tsx:29-30 | a falsy value reads as "", a truthy string as itself |
| TableFilters.FalsyNeverMatches | src/components/dashboard/pedidos/data-table-view.tsx:29-30 | a falsy field never matches a non-empty filter |
| TableFilters.SafeComparePrefix | src/components/dashboard/pedidos/data-table-view.tsx:29-30 | a field matching a longer filter matches its prefix |
| TableFilters.FilterOrders | src/components/dashboard/pedidos/data-table-view.tsx:22-41 | an empty filter shows all rows; no filter adds rows |
| TableFilters.FilterOrdersMembership | src/components/dashboard/pedidos/data-table-view.tsx:22-41 | a row is shown iff it is in the data and the filter is empty or one of its six fields contains it, ignoring case |
| TableFilters.FilterOrdersSubsequence | src/components/dashboard/pedidos/data-table-view.tsx:22-41 | shown rows keep their order |
| TableFilters.FilterOrdersNarrows | src/components/dashboard/pedidos/data-table-view.tsx:22-41 | typing more characters only narrows the rows shown |
| TableFilters.SubsequenceReflexive | src/components/dashboard/pedidos/data-table-view.tsx:23 | with no filter the rows are the data itself |
| TableFilters.FilterFeedback | src/components/dashboard/feedback/feedback-table.tsx:21-40 | an empty filter shows all ratings; no filter adds rows |
| TableFilters.FilterFeedbackMembership | src/components/dashboard/feedback/feedback-table.tsx:21-40 | a rating is shown iff it is in the data and the filter is empty or one of its six fields contains it |
| TableFilters.FilterFeedbackSubsequence | src/components/dashboard/feedback/feedback-table.tsx:21-40 | shown ratings keep their order |
| TableFilters.ZeroRatingIsEmpty | src/components/dashboard/feedback/feedback-table.tsx:28-29 | a rating of 0 reads as "" and never matches |
| OrdersPanel.QueryFor | src/components/dashboard/pedidos/DashboardPedidos.tsx:52-62 | the start date as is; the end date moved to the end of its day |
| OrdersPanel.FetchError | src/components/dashboard/pedidos/DashboardPedidos.tsx:68-80 | no error iff ok with an array; 401 and other statuses and a non-array have their messages |
| OrdersPanel.ReadStatuses | src/components/dashboard/pedidos/DashboardPedidos.tsx:97-102 | the statuses are read iff every row's status is a string or missing |
| OrdersPanel.OrdersPanel.constructor | src/components/dashboard/pedidos/DashboardPedidos.tsx:28-43 | empty, loading, no error, zero counts, first page |
| OrdersPanel.OrdersPanel.SendFetch | src/components/dashboard/pedidos/DashboardPedidos.tsx:47-66 | the error is cleared and the query for the range is sent, with the rows and counts untouched |
| OrdersPanel.OrdersPanel.FinishFetch | src/components/dashboard/pedidos/DashboardPedidos.tsx:68-111 | an error is recorded with the data kept; an array replaces data and total and its counts are computed; the page index is kept; loading ends |
| OrdersPanel.OrdersPanel.LateAnswerWins | src/components/dashboard/pedidos/DashboardPedidos.tsx:47-114 | with two range changes answered out of order, the rows and counts shown are those of the first range, which is no longer selected |
| OrdersPanel.OrdersPanel.SetFilter | src/components/dashboard/pedidos/DashboardPedidos.tsx:229-232 | only the filter changes |
| OrdersPanel.OrdersPanel.Shown | src/components/dashboard/pedidos/DashboardPedidos.tsx:254 | the table gets the filtered rows |
| OrdersPanel.CountsWithinTotal | src/components/dashboard/pedidos/DashboardPedidos.tsx:88-102 | the stage cards add up to at most the rows fetched |
| SamplePanel.SamplePanel.constructor | src/components/dashboard/DashboardPedidos.tsx:19-26 | empty, loading, first page |
| SamplePanel.SamplePanel.Load | src/components/dashboard/DashboardPedidos.tsx:28-73 | the two sample orders and their count; loading ends |
| SamplePanel.SamplePanel.SetFilter | src/components/dashboard/DashboardPedidos.tsx:103-106 | only the filter changes |
| SamplePanel.FirstPageOfSample | src/components/dashboard/DashboardPedidos.tsx:86-90 | the label reads "Mostrando 1 a 2 de 2 pedidos" and "Próximo" is disabled |
| FeedbackPanel.RatingLabelsDistinct | src/components/dashboard/feedback/DashboardFeedback.tsx:122 | the five checkbox labels differ |
| FeedbackPanel.Toggled | src/components/dashboard/feedback/DashboardFeedback.tsx:114-120 | checking appends the key; unchecking removes every copy of it and keeps the rest in order |
| FeedbackPanel.ToggledChecksOnlyItsBox | src/components/dashboard/feedback/DashboardFeedback.tsx:113-120 | a toggle sets its own box and leaves the others |
| FeedbackPanel.FeedbackPanel.constructor | src/components/dashboard/feedback/DashboardFeedback.tsx:26-36 | empty, loading, nothing checked |
| FeedbackPanel.FeedbackPanel.FetchData | src/components/dashboard/feedback/DashboardFeedback.tsx:38-57 | an answer replaces data and total; a failure keeps them; loading ends |
| FeedbackPanel.FeedbackPanel.SetFilter | src/components/dashboard/feedback/DashboardFeedback.tsx:92-97 | only the filter changes |
| FeedbackPanel.FeedbackPanel.ClickRating | src/components/dashboard/feedback/DashboardFeedback.tsx:111-120 | a click flips its own box |
| FeedbackPanel.FeedbackPanel.Shown | src/components/dashboard/feedback/DashboardFeedback.tsx:135-139 | the table gets the filtered ratings |
| Painters.TotalObrasAppend | src/components/dashboard/pintores/DashboardPintores.tsx:48-51 | the works total is additive over painter lists |
| Painters.MaxTotalOf | src/components/dashboard/pintores/DashboardPintores.tsx:66-73 | the maximum is non-negative, bounds every total, and is reached when positive |
| Painters.ArtistaTop | src/components/dashboard/pintores/DashboardPintores.tsx:53-64 | "Nenhum" when no total is positive; else the first painter with the largest total |
| Painters.MaxTotal | src/components/dashboard/pintores/DashboardPintores.tsx:66-73 | the loop computes the maximum |
| Painters.TopHasMaxTotal | src/components/dashboard/pintores/DashboardPintores.tsx:53-64 | the top painter's total bounds every other |
| Painters.TopIsUnique | src/components/dashboard/pintores/DashboardPintores.tsx:53-64 | there is one top painter |
| Painters.TopExists | src/components/dashboard/pintores/DashboardPintores.tsx:53-64 | a positive maximum has a top painter |
| Painters.CardColor | src/components/dashboard/pintores/DashboardPintores.tsx:134 | one of six colours, the first six cards in order |
| Painters.CardName | src/components/dashboard/pintores/DashboardPintores.tsx:139 | the painter's name, or a non-empty fallback |
| Painters.PaintersPanel.constructor | src/components/dashboard/pintores/DashboardPintores.tsx:13-14 | no painters, loading |
| Painters.PaintersPanel.SendCount | src/components/dashboard/pintores/DashboardPintores.tsx:16-30 | the range is sent as it is, and nothing changes before the answer |
| Painters.PaintersPanel.FinishCount | src/components/dashboard/pintores/DashboardPintores.tsx:31-39 | an answer replaces the painters, a failure keeps them; loading ends |
| Painters.PaintersPanel.LateCountWins | src/components/dashboard/pintores/DashboardPintores.tsx:16-42 | with two range changes answered out of order, a successful answer to the first range is what the panel shows |
| Painters.PaintersPanel.Body | src/components/dashboard/pintores/DashboardPintores.tsx:119-158 | the spinner exactly while loading; otherwise the empty message, or one card per painter with the colour of its position, its title and its total |
| Painters.PaintersPanel.TotalMatchesCards | src/components/dashboard/pintores/DashboardPintores.tsx:102-129 | once loaded, the "Total de Pintores" figure is the number of cards, and 0 exactly when the empty message shows |
| RatingPages.Ratings.Set | src/pages/feedback/AvaliacaoPage.tsx:16-18 | only the clicked category changes |
| RatingPages.ClickKeepsRange | src/pages/feedback/AvaliacaoPage.tsx:65-79 | a star click keeps every rating within 0 to 5 and rates its category |
| RatingPages.EnabledIffAllRated | src/pages/feedback/AvaliacaoPage.tsx:144-148 | sending is enabled iff every category has 1 to 5 stars |
| RatingPages.Caption | src/pages/feedback/AvaliacaoPage.tsx:82-87 | a caption iff the rating is 0 to 5; 0 asks for a rating |
| RatingPages.CaptionMatchesStars | src/pages/feedback/AvaliacaoPage.tsx:72-87 | the prompt shows iff no star is filled; different ratings have different captions |
| RatingPages.AvaliacaoForm.constructor | src/pages/feedback/AvaliacaoPage.tsx:9-15 | unrated, no comment, no order id |
| RatingPages.AvaliacaoForm.ReadOrderId | src/pages/feedback/AvaliacaoPage.tsx:20-24 | the id comes from the query string |
| RatingPages.AvaliacaoForm.ClickStar | src/pages/feedback/AvaliacaoPage.tsx:16-18 | only that category's rating changes |
| RatingPages.AvaliacaoForm.SetComentario | src/pages/feedback/AvaliacaoPage.tsx:14 | only the comment changes |
| RatingPages.AvaliacaoForm.Submit | src/pages/feedback/AvaliacaoPage.tsx:26-52 | no id alerts and sends nothing; else the body carries id, ratings and comment, and only success alerts |
| RatingPages.FeedbackForm.constructor | src/pages/feedback/FeedbackPage.tsx:7-12 | unrated, no comment |
| RatingPages.FeedbackForm.ClickStar | src/pages/feedback/FeedbackPage.tsx:14-16 | only that category's rating changes |
| RatingPages.FeedbackForm.SetComentario | src/pages/feedback/FeedbackPage.tsx:12 | only the comment changes |
| RatingPages.FeedbackForm.Submit | src/pages/feedback/FeedbackPage.tsx:18-22 | logs the ratings and comment and sends nothing |
| Login.LoginData.Set | src/components/login-form.tsx:26-29 | only the named field changes |
| Login.ErrorText | src/components/login-form.tsx:72-73 | the server's message, else the error's, else "Ocorreu um erro" |
| Login.LoginForm.constructor | src/components/login-form.tsx:13-22 | login mode, empty fields, idle |
| Login.LoginForm.HandleChange | src/components/login-form.tsx:26-29 | only the named field changes |
| Login.LoginForm.BeginSubmit | src/components/login-form.tsx:33-37 | starts iff idle and the browser's validation passes (every shown input filled, a valid e-mail address), clearing both messages; otherwise nothing changes |
| Login.ValidEmailParts | src/components/login-form.tsx:134-143 | an address the `type="email"` input accepts splits at '@' into exactly a non-empty local part and a domain of valid labels |
| Login.LoginForm.FinishSubmit | src/components/login-form.tsx:39-79 | the requests carry the fields as submitted; login: POST, user fetch and "/ordens", or the error; register: a mismatch of the submitted passwords sends nothing, success clears the current passwords and returns to login; loading ends |
| Login.LoginForm.EditWhileSending | src/components/login-form.tsx:41-45 | an edit while the login POST is in flight changes the form but not the address sent |
| EmailConfig.Validate | src/components/email-remetente/email-config-dialog.tsx:39-47 | the form may be sent iff an address is given and a password is stored or typed; else the first failing check's message |
| EmailConfig.SaveErrorText | src/components/email-remetente/email-config-dialog.tsx:55 | the server's message, else a fixed one |
| EmailConfig.EmailConfigDialog.constructor | src/components/email-remetente/email-config-dialog.tsx:16-21 | closed, empty, idle |
| EmailConfig.EmailConfigDialog.OpenDialog | src/components/email-remetente/email-config-dialog.tsx:24-27 | opening starts the load |
| EmailConfig.EmailConfigDialog.FinishLoad | src/components/email-remetente/email-config-dialog.tsx:28-35 | the stored address and flag, password cleared; or an error toast; loading ends |
| EmailConfig.EmailConfigDialog.Close | src/components/email-remetente/email-config-dialog.tsx:62 | only `open` changes |
| EmailConfig.EmailConfigDialog.SetEmail | src/components/email-remetente/email-config-dialog.tsx:16 | only the address changes |
| EmailConfig.EmailConfigDialog.SetPassword | src/components/email-remetente/email-config-dialog.tsx:17 | only the password changes |
| EmailConfig.EmailConfigDialog.ClickSalvar | src/components/email-remetente/email-config-dialog.tsx:38-51 | nothing while loading; a failed check toasts; else the POST is sent with a non-empty address and a password unless one is stored |
| EmailConfig.EmailConfigDialog.FinishSalvar | src/components/email-remetente/email-config-dialog.tsx:51-58 | success toasts and closes; failure toasts its text; loading ends |

## Left out

- Rendering, styling, icons, tabs and scroll areas are left out; only the values the components compute and show are modelled.
- Network transport, cookies and the axios and fetch machinery are left out. Requests are returned as values and answers are parameters.
- Clocks, `parseISO`/`isValid`, `parseInt`, `parseFloat`, `Number` and `Date` parsing are parameters; their own behaviour is not modelled.
- Floating point is modelled as exact `real` arithmetic. `toFixed`, `toLocaleString` and `toLocaleDateString` are kept as structured values (`Format.Currency`, `Format.DateParts`), not text.
- `extrairDados` in `CriarPedidoDialog.tsx` (the PDF upload that pre-fills the form) is not modelled. The form is taken as given.
- `getStatusColor` in the five-column board is not modelled: it only picks CSS classes.
- The details dialog's delete button and its image zoom are not modelled.
- The sample panel renders `components/dashboard/data-table-view.tsx`, which ignores the filter. That file is not part of this model.
- The feedback and painters panels never read `response.ok` or check for an array. A body that is not an array is not modelled: the answer is a list or a failure.
- Kanban.KanbanBoard.Cancel: the dialog has no `onCancelado` prop, so this handler is never reached. Closing the dialog leaves the pending move and `showDialog` set, on both boards, so the closed dialog stays mounted (see Sessions.OrdersScreen.ShippedSecondDrop).
- Sessions.OrdersScreen.ShippedConfirmation: after the first dialog is sent or closed, no later drop shows a dialog, and nothing more can be sent from this board until the page is reloaded. The older board (`src/pages/ordens.tsx`) keeps its closed dialog mounted the same way after "Cancelar"; only the newer board's sessions are modelled.
- Sessions.OrdersScreen.Drop: it requires that no dialog is open, because the open dialog is modal and its overlay takes the pointer; that behaviour belongs to the dialog library, which is not part of this model.
- Sessions.OrdersScreen.CorrectedConfirmation: when the dialog's send succeeds but the board's notification or PATCH fails, the dialog has closed while `showDialog` stays set, so the corrected session is stuck in the same way as the shipped one.
- ConfirmDialog.DefaultText: `mensagensDefault` has no `feedback` key, so the initial message for that stage contains the text "undefined" (`DefaultShown`).
- Format.FormatCurrency: "RR$$" is cleaned to "R$"; only the structure of the cleaning is stated, not the locale text.
- Format.FormatDate: an ISO text with a time keeps the rest of the string in its third piece; the rendered date text is left as its three pieces.
- CreateOrder.BuildCreateForm: `criarPedido` throws when `observacaoTexto` is undefined (no PDF extracted), which the model returns as `None`.
- Paging.Pager.SetTotal: a refetch keeps `pageIndex`, so the label can read "Mostrando 11 a 3 de 3".
- OrdersPanel.FetchError: the "Erro desconhecido" fallback cannot be reached because every thrown value is an `Error`. `loading` is not set back to true on a refetch.
- FeedbackPanel.FeedbackPanel.ClickRating: `statusFilter` is never read by the table, so the checkboxes change nothing shown.
- DateFilterUi.DateFilterControl.HandleRangeApply: it does not check that the start precedes the end, so the model does not require it either.
- DateFilterUi.DisplayText: the text is only the `placeholder` of `SelectValue` (src/components/ui/date-filter.tsx:125), and the `Select` always has a value, so the trigger shows the chosen item's own text and this text is never rendered. Its default "Selecionar período" cannot be reached either.
- DateFilterUi.DateFilterControl.HandleFilterChange: the method also accepts the current preset, which then keeps the control's own range, not ending at the end of the day, because the provider's effect does not run again. The `Select` calls `onValueChange` only when the value changes, so that case cannot be reached from the control.
- DateFilterContext.DateFilterProvider.Effect: the first run replaces the initial empty range with the 7-day preset.
- Painters.PaintersPanel.SendCount: the end date is sent as is, not moved to the end of its day as the orders panel does.
- Login.LoginForm.BeginSubmit: the e-mail input's value sanitisation (newlines and surrounding spaces stripped by the browser) is not modelled; the model checks the text the form holds. The password inputs have the unknown types "senha" and "Senha", so they behave as text inputs and only `required` applies.
- Painters.ArtistaTop: a painter named "" can be the top painter and is then rendered blank; the `maxTotal` the page computes is never rendered.
- RecentSales.SortNewestFirst: the sort is stable (equal dates keep their input order), but the contract states only permutation and order.
- RecentSales.Initials: `toUpperCase` is modelled as Strings.Upper has it. The row's `valorUnitario` locale text is left out.
- RecentSales.FirstChars: JavaScript strings are sequences of UTF-16 code units, while a Dafny string is a sequence of Unicode scalar values. For a name starting with a character beyond U+FFFF, `n[0]` gives a lone surrogate, where the model gives the whole character. RecentSales.InitialsOfName inherits this. OrderApi.LastSix counts characters where `slice(-6)` counts code units, and so do the lengths elsewhere in the model.
- Strings.Lower: only the ASCII capitals and U+00C0 to U+00DE (except U+00D7) are mapped. JavaScript also lower-cases capitals beyond U+00FF, and 'İ' becomes two code units. Dashboard.CountKey and TableFilters.SafeCompare inherit this.
- Strings.Upper: only the ASCII small letters and U+00E0 to U+00FE (except U+00F7) are mapped. JavaScript gives "SS" for 'ß', 'S' for 'ſ', U+0178 for 'ÿ', U+039C for 'µ' and maps small letters beyond U+00FF; so "ſedex" counts as SEDEX in the source but not in Dashboard.Carrier.
- Calendar.MinusDays: every day is 86 400 000 ms, as are the days of RecentSales.Cutoff. date-fns `subDays` and `setDate` keep the wall-clock time across a daylight-saving change, which this model does not capture, because time zones are not modelled.
- Paging.Pager: the panel's page index never reaches the table, which keeps its own pagination state (src/components/dashboard/pedidos/data-table-view.tsx:16-19, src/components/dashboard/feedback/feedback-table.tsx:15-17). "Anterior" and "Próximo" change only the label, and the total counts all loaded rows, not the filtered ones.
- Login.LoginForm.FinishSubmit: no handler sets `isLogin` to false, so register mode cannot be reached as shipped. The contract also states `old(isLogin) ==> isLogin`.
- EmailConfig.EmailConfigDialog.FinishLoad: `email || ""` with a truthy non-string value is modelled as "".
- RatingPages.AvaliacaoForm.Submit: `handleSubmit` does not check the ratings itself; only the disabled button keeps unrated categories from being sent.

## Findings

| source | as written | input that shows it | evidently intended | confidence | as-written member | corrected member |
|---|---|---|---|---|---|---|
| src/components/ConfirmarEnvioDialog.tsx:79 | after its own POST succeeds, the dialog calls `onConfirmado()` with no argument; the board's `handleConfirmacao` (src/pages/ordens/ordens.tsx:179-247) then reads `data.mensagem` and throws before any request, so the card never moves and the pending move stays set | drag any card to another column, then send the dialog with every request succeeding | the dialog hands its message, files and tracking code to `onConfirmado`, so the board patches the status and moves the card; as the board's handler also posts the notification, the customer then gets it twice | high; not executed | Sessions.OrdersScreen.ShippedConfirmation, Sessions.MoveChangesCache | Sessions.OrdersScreen.CorrectedConfirmation |
| src/components/ConfirmarEnvioDialog.tsx:18-25 | the dialog has no `onCancelado` prop, so the board's handler (src/pages/ordens/ordens.tsx:474-478) is never called; closing or sending only sets the dialog's own `open` to false, `showDialog` stays set and the closed dialog stays mounted with the state of its first mount | drag card A to another column, press "Cancelar" (or send it), then drag card B to another column: no dialog shows | closing the dialog calls `onCancelado`, and a confirmed move clears `showDialog`, so the dialog unmounts and the next drop mounts a fresh one with that card's message | high; not executed | Sessions.OrdersScreen.ShippedSecondDrop, Sessions.OrdersScreen.ShippedCancel | Sessions.OrdersScreen.CorrectedSecondDrop, Sessions.OrdersScreen.CorrectedCancel |
