# Event invitations, menus and admin callables — a Dafny model

This project models the callable cloud functions behind an event platform.
Guests are invited to events, answer demographic questions and then pick
from the menu the event offers. Administrators manage organisations'
payment records, free event credits, super-admin and sales-person
accounts, and password resets.

The model covers eight handlers:

- `submitMenuSelection` records one person's menu choice for an
  invitation. The person is either the invited guest or one of their
  companions. The handler runs a transaction over the invitation and the
  per-person response document. It is modelled as a transition on a
  store of invitations and responses (`MenuSubmission`) together with a
  class whose method performs it (`MenuSubmission.Store`). The shared
  token-and-expiry guard is in `Guest`.
- `getSelectedMenuItemsForInvitation` resolves the items an event offers
  (`MenuCatalog`). It covers the event lookup with its fallback query,
  the category key normaliser and its labels, the vegetarian classifier,
  the batched fetch of at most ten ids, and the re-ordering into the
  event's selection order.
- `sendInvitations` (file `sendInvitationForEvent.js`) writes one
  invitation per guest with an e-mail address and mails each guest a
  link. It is modelled as a class whose loop is proved against a
  functional specification of the loop (`Invitations`). The model also
  covers the HTML escaper and the expiry setting.
- `getOrganisationPayments` narrows the organisations a caller may see
  and groups their payment records in batches of 30 (`Payments`).
- `assignFreeCredits` guards the call and builds the zero-amount payment
  record (`FreeCredits`).
- `manageSuperAdmin` performs one of five actions on super-admin
  accounts (`SuperAdmins`). It keeps the users collection and the Auth
  accounts as fields of a class.
- `createSalesPersonAccount` creates or re-sends a sales-person account
  (`SalesPeople`).
- `verifyPasswordResetCode` and `confirmPasswordReset` are in
  `PasswordReset`.

`Js` holds the JavaScript values the handlers read (truthiness, `||`,
missing fields) and the error codes they throw. `Text` holds trimming,
ASCII case folding, decimal rendering and the e-mail shape test.

Points where the model follows the code rather than the prose that
describes it:

- Both guest-facing handlers compare the token before they look at the
  expiry. A wrong token on an expired invitation is therefore
  `permission-denied`, not `failed-precondition`.
- `createSalesPersonAccount` rethrows no `HttpsError` unchanged. Its
  catch maps only three Auth codes and turns everything else into
  `internal`. So the "already registered" refusal and the missing mail
  token both reach the caller as `internal`, and so do the caller-check
  failures. `SalesPeople.Translate` and
  `SalesPeople.Directory.CreateSalesPersonAccount` state this.
- `manageSuperAdmin`'s caller check rewraps its own `permission-denied`
  as `internal`, because its catch turns every error into `internal`.
- `verifyPasswordResetCode` verifies nothing. Every code of at least 20
  UTF-16 units is answered with the same placeholder address.

## Model

| member | source | states |
|---|---|---|
| Guest.CheckAccess | functions/submitMenuSelection.js:49-60 | an invitation is admitted exactly when it exists, its token matches and it has not expired; otherwise not-found, then permission-denied for a wrong token (even when expired), then failed-precondition for an expired one |
| MenuSubmission.PersonIndex | functions/submitMenuSelection.js:33-34 | the reply's companion index is null exactly for the invited guest |
| MenuSubmission.ResponseKeyShape | functions/submitMenuSelection.js:42-45 | the response key starts with the invitation id: it is the id itself for the guest and the id followed by `_` and more for a companion |
| MenuSubmission.ResponseKeyDistinct | functions/submitMenuSelection.js:42-45 | within one invitation, two persons never share a response document |
| MenuSubmission.ResponseKeyInjective | functions/submitMenuSelection.js:42-45 | across invitations whose ids contain no `_`, the key determines both the invitation and the person |
| MenuSubmission.ResponseKeyCollision | functions/submitMenuSelection.js:42-45 | without that proviso the guest of invitation `x_companion_0` and companion 0 of invitation `x` share one response document |
| MenuSubmission.TrimAll | functions/submitMenuSelection.js:100 | every selected id is trimmed, in place and in order |
| MenuSubmission.NormalizedMembers | functions/submitMenuSelection.js:96-106 | the cleaned list holds exactly the non-empty trimmed ids |
| MenuSubmission.NormalizedNoDuplicates | functions/submitMenuSelection.js:96-106 | the cleaned list has no duplicates |
| MenuSubmission.NormalizedFirstSeenOrder | functions/submitMenuSelection.js:96-106 | the cleaned list keeps the order of each id's first occurrence |
| MenuSubmission.NormalizeSelection | functions/submitMenuSelection.js:96-106 | the loop with its seen-set produces exactly the cleaned list |
| MenuSubmission.CheckArguments | functions/submitMenuSelection.js:25-38 | the arguments are accepted exactly when the id and token are present, the selection is an array and a given companion index parses to a non-negative integer; the person is the guest exactly when no index was given |
| MenuSubmission.Admit | functions/submitMenuSelection.js:49-94 | an admission has passed the argument checks and the access check (invitation found, token matched, not expired) for a person the invitation has whose demographics are done; it is already done exactly with the person's flag or response present, and fresh otherwise, with neither |
| MenuSubmission.ArgumentErrorsComeFirst | functions/submitMenuSelection.js:25-38 | bad arguments give invalid-argument and leave the store unchanged, whatever it holds |
| MenuSubmission.AccessErrorsComeNext | functions/submitMenuSelection.js:48-60 | with good arguments, a failed access check is reported with its own code and nothing is written |
| MenuSubmission.CompanionOutOfRange | functions/submitMenuSelection.js:62-68 | a companion index at or beyond the companion list is invalid-argument and nothing is written |
| MenuSubmission.DemographicsBeforeMenu | functions/submitMenuSelection.js:70-88 | a person who has not answered the demographic questions gets failed-precondition and nothing is written |
| MenuSubmission.AlreadySubmittedIsNoop | functions/submitMenuSelection.js:75-94 | a person already marked, or already holding a response document, gets "already submitted" and the store is unchanged |
| MenuSubmission.FreshSubmissionEffects | functions/submitMenuSelection.js:96-154 | a fresh submission creates the person's response with the cleaned selection, marks the guest (or only the chosen companion) as submitted, and leaves every other companion alone |
| MenuSubmission.TransitionFrame | functions/submitMenuSelection.js:48-155 | a call touches only its own invitation and adds at most its own response document; no existing response changes and no submitted mark is lost |
| MenuSubmission.TransitionPreservesConsistency | functions/submitMenuSelection.js:76-152 | in a store whose invitation ids contain no `_`, every call keeps each person's submitted mark in step with the existence of their response document |
| MenuSubmission.SuccessLeavesSubmitted | functions/submitMenuSelection.js:122-154 | after any successful call the person is marked submitted and has a response document |
| MenuSubmission.RepeatIsAlreadySubmitted | functions/submitMenuSelection.js:71-94 | repeating a successful call, while the invitation is still valid, answers "already submitted" and changes nothing |
| MenuSubmission.SerialCompanionSubmissions | functions/submitMenuSelection.js:48-155 | two successful calls for different persons of one invitation leave both marked and both responses stored |
| MenuSubmission.Store.SubmitMenuSelection | functions/submitMenuSelection.js:21-164 | the handler's reply and new store are those of the transition |
| MenuCatalog.Chunk | functions/getSelectedMenuItemsForInvitation.js:9-13 | the chunks spell out the input in order; each holds between one and `size` entries, and all but the last hold exactly `size` |
| MenuCatalog.QueryByEventId | functions/getSelectedMenuItemsForInvitation.js:20-28 | the fallback query yields the first document, in query order, whose `eventId` field matches, and none exactly when no document matches |
| MenuCatalog.GetEventData | functions/getSelectedMenuItemsForInvitation.js:15-29 | the document whose id is the event id wins; otherwise the fallback query decides; nothing is found exactly when neither succeeds |
| MenuCatalog.LegacyKeysAreKeys | functions/getSelectedMenuItemsForInvitation.js:70-91 | every legacy spelling maps to one of the known category keys |
| MenuCatalog.KeysAreWords | functions/getSelectedMenuItemsForInvitation.js:32-51 | every known category key is made of letters only |
| MenuCatalog.Compact | functions/getSelectedMenuItemsForInvitation.js:60 | the compact form has no whitespace, `_` or `-`, and text without them is unchanged |
| MenuCatalog.ReplaceAmpersands | functions/getSelectedMenuItemsForInvitation.js:95 | no `&` survives, and text without one is unchanged |
| MenuCatalog.SeparatorsToSpaces | functions/getSelectedMenuItemsForInvitation.js:96-97 | no `/`, `_` or `-` survives, the length is kept, and text without them is unchanged |
| MenuCatalog.CollapseSpaces | functions/getSelectedMenuItemsForInvitation.js:98 | the text never grows, and text without whitespace is unchanged |
| MenuCatalog.RemoveSpaces | functions/getSelectedMenuItemsForInvitation.js:101 | no whitespace survives, and text without it is unchanged |
| MenuCatalog.CamelKey | functions/getSelectedMenuItemsForInvitation.js:62-67 | a compact spelling of a multi-word key yields that key |
| MenuCatalog.LabelKey | functions/getSelectedMenuItemsForInvitation.js:101-110 | the label-based fallback always yields a known key, `other` at worst |
| MenuCatalog.TableLookup | functions/getSelectedMenuItemsForInvitation.js:70-91 | an own entry of the legacy table is found exactly when the lowered text is one of its spellings, and it is a known key |
| MenuCatalog.KeyFromLowered | functions/getSelectedMenuItemsForInvitation.js:59-110 | the lowered text always resolves to a known key |
| MenuCatalog.NormalizeCategoryKey | functions/getSelectedMenuItemsForInvitation.js:53-111 | the corrected normaliser always yields a known category key, and `other` for blank input |
| MenuCatalog.TableLookupAsWritten | functions/getSelectedMenuItemsForInvitation.js:91 | on a plain object the lookup also hits the inherited `constructor` and `__proto__`, and agrees with the own-entry lookup everywhere else |
| MenuCatalog.AsWrittenAgreesElsewhere | functions/getSelectedMenuItemsForInvitation.js:53-111 | except for those two lowered spellings, the normaliser as written agrees with the corrected one |
| MenuCatalog.InheritedNamesEscapeTheKeySet | functions/getSelectedMenuItemsForInvitation.js:91 | as written, the categories `constructor` and `__proto__` yield an inherited member instead of a key; the corrected normaliser sends `constructor` to `other` |
| MenuCatalog.ConstructorFinding | functions/getSelectedMenuItemsForInvitation.js:91 | as written, `constructor` yields the inherited constructor function |
| MenuCatalog.ProtoFinding | functions/getSelectedMenuItemsForInvitation.js:91 | as written, `__proto__` yields the inherited prototype object |
| MenuCatalog.ConstructorCorrected | functions/getSelectedMenuItemsForInvitation.js:101-110 | with own-entry lookup, `constructor` falls through to the label fallback and becomes `other` |
| MenuCatalog.KeyIsFixed | functions/getSelectedMenuItemsForInvitation.js:56-57 | a known key is returned unchanged |
| MenuCatalog.NormalizeCategoryKeyIdempotent | functions/getSelectedMenuItemsForInvitation.js:53-111 | normalising a normalised key changes nothing |
| MenuCatalog.CaseAndSeparatorsIgnored | functions/getSelectedMenuItemsForInvitation.js:53-67 | any text that, trimmed, lowered and stripped of whitespace, `_` and `-`, equals the lower-case form of a multi-word key normalises to that key, whatever its casing or separators |
| MenuCatalog.FoodStationsSpellings | functions/getSelectedMenuItemsForInvitation.js:53-67 | "Food Stations", "food_stations" and "foodstations" all normalise to `foodStations`, which is labelled "Food Stations" |
| MenuCatalog.LegacySpellings | functions/getSelectedMenuItemsForInvitation.js:53-91 | a text that is not itself a key and whose trimmed lower-case form is one of the table's spellings normalises to the key the table gives that spelling |
| MenuCatalog.DrinkSpelling | functions/getSelectedMenuItemsForInvitation.js:70-91 | `drink` is filed under `beverages` |
| MenuCatalog.UpperFirst | functions/getSelectedMenuItemsForInvitation.js:131 | the first character is upper-cased (unless it is a line terminator) and the rest is kept |
| MenuCatalog.SpaceBeforeCapitals | functions/getSelectedMenuItemsForInvitation.js:130 | text without capitals is unchanged |
| MenuCatalog.CategoryLabel | functions/getSelectedMenuItemsForInvitation.js:113-133 | the six keys with fixed labels get exactly those labels |
| MenuCatalog.LabelCapitalisesFirstLetter | functions/getSelectedMenuItemsForInvitation.js:127-131 | any other lower-case key is labelled by capitalising its first letter |
| MenuCatalog.KeyLabelsStartWithCapital | functions/getSelectedMenuItemsForInvitation.js:113-133 | every known key's label starts with a capital letter |
| MenuCatalog.DeriveIsVeg | functions/getSelectedMenuItemsForInvitation.js:135-146 | a boolean `isVeg` wins; otherwise `veg`/`vegetarian` is vegetarian, any food type containing `non` is not, and an empty one is unknown |
| MenuCatalog.OrNull | functions/getSelectedMenuItemsForInvitation.js:213 | a missing value becomes null and a present one is kept |
| MenuCatalog.ItemOf | functions/getSelectedMenuItemsForInvitation.js:201-222 | an item carries the id of the document it was built from |
| MenuCatalog.SelectedIds | functions/getSelectedMenuItemsForInvitation.js:176-180 | an array of selected ids is filtered to its non-blank strings; anything other than an array selects nothing |
| MenuCatalog.NonBlankStrings | functions/getSelectedMenuItemsForInvitation.js:176-180 | the kept ids are non-blank strings taken from the array, never more of them than the array has |
| MenuCatalog.NonBlankStringsAppend | functions/getSelectedMenuItemsForInvitation.js:176-180 | filtering a concatenation concatenates the filtered parts |
| MenuCatalog.NonBlankStringsPosition | functions/getSelectedMenuItemsForInvitation.js:176-180 | every non-blank string entry is kept, at the position given by the number of kept entries before it |
| MenuCatalog.NonBlankStringsOrder | functions/getSelectedMenuItemsForInvitation.js:176-180 | of two kept entries, the earlier one comes first in the result |
| MenuCatalog.NonBlankStringsOrigin | functions/getSelectedMenuItemsForInvitation.js:176-180 | every kept id is the text of a non-blank string entry of the array, at that entry's position |
| MenuCatalog.OfferingsContents | functions/getSelectedMenuItemsForInvitation.js:200-223 | exactly the existing, not disabled menu documents become items, each built from its own document |
| MenuCatalog.CatalogContents | functions/getSelectedMenuItemsForInvitation.js:192-224 | the map by id holds exactly the selected ids that are offered, each with its item |
| MenuCatalog.InOrderFollowsSelection | functions/getSelectedMenuItemsForInvitation.js:226-230 | the result lists the offered items in the event's selection order, skipping the rest |
| MenuCatalog.BuildCatalog | functions/getSelectedMenuItemsForInvitation.js:192-224 | the batched fetch builds exactly the map by id |
| MenuCatalog.AddBatch | functions/getSelectedMenuItemsForInvitation.js:195-223 | one batch extends the map by exactly that batch's offered ids |
| MenuCatalog.OrderItems | functions/getSelectedMenuItemsForInvitation.js:227-230 | the ordering loop yields the items in selection order |
| MenuCatalog.InOrderAsWrittenAgrees | functions/getSelectedMenuItemsForInvitation.js:227-230 | when no selected id is an inherited member name without an own entry, the walk as written pushes exactly the items of the corrected walk |
| MenuCatalog.InheritedIdsReachTheItems | functions/getSelectedMenuItemsForInvitation.js:229 | as written, an event that selects `toString` with no such menu item pushes the inherited function, where the corrected walk pushes nothing |
| MenuCatalog.SelectedMenuItemsErrors | functions/getSelectedMenuItemsForInvitation.js:150-173 | each error arises exactly in its case: missing arguments, unknown invitation, wrong token, expired or event-less invitation, unknown event |
| MenuCatalog.SelectedMenuItemsInEventOrder | functions/getSelectedMenuItemsForInvitation.js:175-237 | a success lists exactly the offered selected items, in the event's selection order, each built from its own menu document |
| MenuCatalog.GetSelectedMenuItemsForInvitation | functions/getSelectedMenuItemsForInvitation.js:148-244 | the handler returns what the specification function returns |
| Invitations.DigitPrefix | functions/sendInvitationForEvent.js:23 | `parseInt` reads the longest leading run of digits |
| Invitations.ParseRendering | functions/sendInvitationForEvent.js:23 | parsing a decimal rendering gives back the number |
| Invitations.ExpiryDays | functions/sendInvitationForEvent.js:21-25 | the expiry is at least one day: a setting that parses to at least 1 is used, anything else falls back to 14 |
| Invitations.ExpiryDaysOfRendering | functions/sendInvitationForEvent.js:21-25 | a positive whole number of days given as the setting is used as is |
| Invitations.ReplaceChar | functions/sendInvitationForEvent.js:36-40 | replacing a character by an entity without it leaves none of it |
| Invitations.ReplaceCharAppend | functions/sendInvitationForEvent.js:36-40 | a global replacement distributes over concatenation |
| Invitations.EscapeChar | functions/sendInvitationForEvent.js:36-40 | an ordinary character is kept; a special one becomes an entity between `&` and `;` |
| Invitations.EscapeTextIsEscapeEach | functions/sendInvitationForEvent.js:35-40 | the chain of five global replacements equals escaping each character on its own |
| Invitations.EscapeAmpersand | functions/sendInvitationForEvent.js:36 | `&` becomes `&amp;` |
| Invitations.EscapeLess | functions/sendInvitationForEvent.js:37 | `<` becomes `&lt;` |
| Invitations.EscapeGreater | functions/sendInvitationForEvent.js:38 | `>` becomes `&gt;` |
| Invitations.EscapeQuote | functions/sendInvitationForEvent.js:39 | `"` becomes `&quot;` |
| Invitations.EscapeApostrophe | functions/sendInvitationForEvent.js:40 | `'` becomes `&#039;` |
| Invitations.EscapeHtml | functions/sendInvitationForEvent.js:33-41 | the escaped text contains no `<`, `>`, `"` or `'`, and a missing value escapes to the empty text |
| Invitations.UnescapeEscapeHtml | functions/sendInvitationForEvent.js:33-41 | decoding the entities gives back the original text, so escaping loses nothing |
| Invitations.LinkRoundTrip | functions/sendInvitationForEvent.js:125-127 | the link's query string gives back the encoded invitation id and token |
| Invitations.TrimmedText | functions/sendInvitationForEvent.js:91-92 | a missing field reads as empty and a string is trimmed; any other truthy value throws |
| Invitations.ReadGuestFields | functions/sendInvitationForEvent.js:90-97 | a guest entry is read from its trimmed e-mail and name and fails exactly when either cannot be trimmed; the guest allowance is the number given or 0, and the guest id and batch are the field when truthy and null otherwise |
| Invitations.NewDoc | functions/sendInvitationForEvent.js:101-120 | a new invitation is unused and unsent, carries its id, token, event, guest id, allowance, e-mail and name, expires the configured number of days after creation, has the invitation code and batch exactly when they are truthy, and null for a missing organisation or question set |
| Invitations.Delivered | functions/sendInvitationForEvent.js:196-214 | after the send the invitation is marked sent exactly when the mail was accepted, the attempt is stamped, and nothing else changes |
| Invitations.ResultOf | functions/sendInvitationForEvent.js:202-222 | a result is "sent" exactly when the mail was accepted and otherwise carries the mailer's message and status |
| Invitations.CountSent | functions/sendInvitationForEvent.js:235 | the invited count never exceeds the number of results |
| Invitations.CountSentBounds | functions/sendInvitationForEvent.js:235 | every result counts exactly when all were sent, and none exactly when all failed |
| Invitations.ReadAll | functions/sendInvitationForEvent.js:90-97 | each entry is read in order |
| Invitations.Kept | functions/sendInvitationForEvent.js:99 | the guests that get an invitation are exactly those with an e-mail address, in input order |
| Invitations.LoopThrows | functions/sendInvitationForEvent.js:90-99 | the loop aborts exactly when some entry cannot be read |
| Invitations.LoopResults | functions/sendInvitationForEvent.js:90-224 | one result per invited guest, in order, each the outcome of that guest's mail |
| Invitations.LoopFrame | functions/sendInvitationForEvent.js:101-214 | no invitation document is touched except those the loop creates |
| Invitations.LoopDocs | functions/sendInvitationForEvent.js:101-214 | each invited guest's document is the new invitation updated with its delivery outcome |
| Invitations.Send | functions/sendInvitationForEvent.js:43-244 | invalid-argument exactly when the event id or the guest list is missing or empty; failed-precondition exactly when the mail token is blank; neither writes anything; a success appends exactly one log entry with the results |
| Invitations.SendThrows | functions/sendInvitationForEvent.js:238-243 | past the guards, the call fails, as internal, exactly when some guest entry cannot be read |
| Invitations.SendReport | functions/sendInvitationForEvent.js:226-237 | otherwise the reply lists one result per invited guest and counts exactly those sent |
| Invitations.InvitationStore.InviteOne | functions/sendInvitationForEvent.js:101-223 | one guest's invitation is written with its delivery outcome and the result is reported |
| Invitations.InvitationStore.InviteAll | functions/sendInvitationForEvent.js:90-224 | the loop over the guests produces the documents, results and abort flag of the loop specification |
| Invitations.InvitationStore.SendInvitations | functions/sendInvitationForEvent.js:43-244 | the handler's reply and new store are those of the specification function |
| Payments.ProfileOf | functions/getOrganisationPayments.js:28-31 | the caller's role and organisation are the trimmed fields, and empty for a missing profile |
| Payments.PermittedIds | functions/getOrganisationPayments.js:15-48 | unauthenticated and invalid-argument exactly in their cases; super admins and active sales people see every requested id; anyone else sees only their own organisation, and only if they asked for it, otherwise permission-denied |
| Payments.Batches | functions/getOrganisationPayments.js:51-62 | the batches spell out the ids in order, each holding at most 30 and all but the last exactly 30 |
| Payments.BatchesCover | functions/getOrganisationPayments.js:51-62 | there are exactly as many batches as 30 divides into the id count, rounded up |
| Payments.RecordDefaults | functions/getOrganisationPayments.js:74-101 | a record keeps the id and organisation; a missing currency is `usd`; missing flags are false; a missing note is null |
| Payments.Owner | functions/getOrganisationPayments.js:71-73 | a payment is filed under its organisation exactly when that field is a non-empty string |
| Payments.Initial | functions/getOrganisationPayments.js:55-58 | every requested organisation starts with an empty list, and no other is present |
| Payments.CollectGroups | functions/getOrganisationPayments.js:69-104 | grouping keeps the requested organisations and appends to each exactly its own payments, in query order |
| Payments.CollectAppend | functions/getOrganisationPayments.js:61-105 | grouping batch after batch equals grouping everything at once |
| Payments.TableGroups | functions/getOrganisationPayments.js:50-105 | the reply maps each requested organisation to exactly its payments across all batches |
| Payments.EmptyLists | functions/getOrganisationPayments.js:55-58 | the initialising loop builds the empty table |
| Payments.AddBatch | functions/getOrganisationPayments.js:69-104 | the loop over one query's documents performs the grouping |
| Payments.FillTable | functions/getOrganisationPayments.js:50-105 | the batch loop builds exactly the grouped table |
| Payments.BatchStep | functions/getOrganisationPayments.js:61-62 | one step of the batch loop takes the next slice of at most 30 ids |
| Payments.GetOrganisationPayments | functions/getOrganisationPayments.js:14-118 | the handler returns what the specification function returns |
| FreeCredits.EventCount | functions/assignFreeCredits.js:33-35 | the event count is accepted exactly when it is a positive whole number, and keeps its value |
| FreeCredits.OrganisationKey | functions/assignFreeCredits.js:29-31 | the organisation id is accepted exactly when it is a non-blank string, and is used trimmed |
| FreeCredits.OrganisationName | functions/assignFreeCredits.js:60 | `name`, else `companyName`, else "Unknown Organisation"; never empty |
| FreeCredits.PluralOnlyAboveOne | functions/assignFreeCredits.js:90 | for a positive count the plural suffix is empty exactly for one, and "s" otherwise |
| FreeCredits.PackageNameNumber | functions/assignFreeCredits.js:90 | the package name says "Free Event" for one credit and "Free Events" for more |
| FreeCredits.MessageNumber | functions/assignFreeCredits.js:145 | the reply message says "free event" for one credit and "free events" for more |
| FreeCredits.NoteText | functions/assignFreeCredits.js:98 | a missing note is null and a string note is trimmed |
| FreeCredits.Credit | functions/assignFreeCredits.js:63-120 | the record is a completed, free, zero-amount `usd` credit for the organisation, assigned by the caller, with the token's e-mail and the profile name taking precedence, and the note as reason when given |
| FreeCredits.AssignFreeCredits | functions/assignFreeCredits.js:20-159 | each refusal arises exactly in its case and order (signed out, bad id or count, not a super admin, unknown organisation) and success exactly when every guard passes; a success writes the credit record for the caller, the trimmed id, the organisation's name and the count, and replies with the new ids, the message and the assigner |
| SuperAdmins.ParseAction | functions/manageSuperAdmin.js:61-71 | an action is accepted exactly when it names one of the five actions |
| SuperAdmins.ParseActionName | functions/manageSuperAdmin.js:61-71 | every action's name parses back to it |
| SuperAdmins.PayloadOf | functions/manageSuperAdmin.js:59 | the payload is the request's fields |
| SuperAdmins.Admit | functions/manageSuperAdmin.js:39-81 | unauthenticated without a caller; internal (the rewrapped refusal) for a caller who is not a super admin; invalid-argument for a bad action or e-mail; otherwise the parsed action and the e-mail |
| SuperAdmins.Translate | functions/manageSuperAdmin.js:102-137 | the four known Auth codes become their callable codes, an HttpsError keeps its code, anything else is internal |
| SuperAdmins.TranslateOtherAuthCodes | functions/manageSuperAdmin.js:102-137 | any other Auth code is internal |
| SuperAdmins.Caught | functions/manageSuperAdmin.js:87-137 | a returned reply is the result and a raised error is translated |
| SuperAdmins.CreatedIsEnabledSuperAdmin | functions/manageSuperAdmin.js:208-222 | a created profile is an enabled super admin with the given id, e-mail and name |
| SuperAdmins.EditKeepsPhone | functions/manageSuperAdmin.js:344-353 | an edit sets the name, sets the phone only when given, and leaves every other field alone |
| SuperAdmins.DisableTouchesOnlyFlag | functions/manageSuperAdmin.js:401-404 | disabling changes only the disabled flag (and the modification time) |
| SuperAdmins.DeleteTouchesOnlyFlag | functions/manageSuperAdmin.js:465-468 | deleting changes only the deleted flag (and the modification time) |
| SuperAdmins.Directory.CallerDoc | functions/manageSuperAdmin.js:44-47 | the caller's profile is found exactly when the caller is signed in and has one |
| SuperAdmins.Directory.Target | functions/manageSuperAdmin.js:326-342 | not-found without an account or profile, permission-denied when the target is not a super admin, otherwise the target's id |
| SuperAdmins.Directory.HandleCreate | functions/manageSuperAdmin.js:143-312 | a missing name or mail token refuses without writing; the account is reused (gaining the claim) or created; the profile is written as a super admin; a mail failure still leaves those writes in place |
| SuperAdmins.Directory.HandleEdit | functions/manageSuperAdmin.js:317-369 | the target's profile is updated, and the Auth display name only when it changed; failures before the update write nothing |
| SuperAdmins.Directory.HandleDisable | functions/manageSuperAdmin.js:374-419 | a non-boolean flag or a bad target refuses without writing; otherwise the profile flag is set first and then the Auth account's |
| SuperAdmins.Directory.HandleDelete | functions/manageSuperAdmin.js:430-487 | the profile flag is set, and the Auth account is removed only when deleting; an Auth failure leaves the profile write in place |
| SuperAdmins.Directory.ResetPasswordOutcome | functions/manageSuperAdmin.js:492-605 | a reset succeeds exactly when the target is valid, a link is generated, the mail token is set and the mail goes out; it writes nothing |
| SuperAdmins.Directory.ManageSuperAdmin | functions/manageSuperAdmin.js:37-138 | a refused call writes nothing; a success answers the requested action; a password reset writes nothing |
| SalesPeople.PayloadOf | functions/createSalesPersonAccount.js:60 | the payload is the request's fields |
| SalesPeople.Admit | functions/createSalesPersonAccount.js:40-82 | unauthenticated without a caller; internal for a caller who is not a super admin; invalid-argument for a missing field or a malformed e-mail; otherwise the e-mail |
| SalesPeople.Translate | functions/createSalesPersonAccount.js:309-335 | three Auth codes become their callable codes; everything else, HttpsErrors included, is internal |
| SalesPeople.Caught | functions/createSalesPersonAccount.js:309-335 | a returned reply is the result and a raised error is translated |
| SalesPeople.NewFieldsRole | functions/createSalesPersonAccount.js:175-192 | a new profile is an enabled, unverified sales person with the given referral code |
| SalesPeople.ResendKeeps | functions/createSalesPersonAccount.js:162-174 | a resend updates the name, keeps the role and referral code, and overwrites optional fields only when given |
| SalesPeople.AccountUid | functions/createSalesPersonAccount.js:128-157 | the uid is the existing account's, or the new one's exactly when the lookup says not-found and creation succeeds |
| SalesPeople.AccountsAfter | functions/createSalesPersonAccount.js:128-157 | once an account is obtained it carries the sales-person role and id claims and no other account changes; otherwise nothing changes |
| SalesPeople.UsersAfter | functions/createSalesPersonAccount.js:161-194 | step 5 fails exactly for a resend with no profile under the uid; otherwise the uid gains a profile and every other profile is kept |
| SalesPeople.Directory.CallerDoc | functions/createSalesPersonAccount.js:44-52 | the caller's profile is found exactly when the caller is signed in and has one |
| SalesPeople.Directory.EnsureAccount | functions/createSalesPersonAccount.js:128-157 | an existing Auth account gains the claims; a new one is created only when the lookup says the user is not found; any other failure changes nothing |
| SalesPeople.Directory.WriteUserDoc | functions/createSalesPersonAccount.js:161-194 | a resend updates the existing profile (and fails on a missing one); otherwise a new profile replaces whatever was there |
| SalesPeople.Directory.Provision | functions/createSalesPersonAccount.js:88-308 | an already registered e-mail without a resend, or a blank mail token, refuses before any write; a failed Auth lookup or a refused creation raises that Auth error and writes nothing; once an account is obtained it carries the sales-person claims whatever follows; a resend whose profile is missing fails with the profiles unchanged; a failed link or mail fails with the account and profile writes in place; a success leaves the account with the sales-person claim and the profile created or updated |
| SalesPeople.Directory.CreateSalesPersonAccount | functions/createSalesPersonAccount.js:34-336 | a refused call writes nothing; the registered-user refusal and a blank mail token both come out as internal; a failed Auth lookup or a refused account creation reaches the caller as its translated Auth code, with nothing written; a success's id has a profile |
| PasswordReset.VerifyPasswordResetCode | functions/passwordReset.js:20-64 | a code is refused exactly when it is not a non-empty string of at least 20 UTF-16 units; an accepted code always answers the placeholder address |
| PasswordReset.VerifyIgnoresCode | functions/passwordReset.js:47-51 | any two accepted codes get the same answer |
| PasswordReset.ResetErrorCode | functions/passwordReset.js:119-147 | an invalid or expired code or a weak password is invalid-argument; anything else is internal |
| PasswordReset.ConfirmPasswordReset | functions/passwordReset.js:79-149 | bad input is invalid-argument; otherwise the lookup's or the reset's failure is mapped; a success answers the code's address |
| PasswordReset.ConfirmChecksFirst | functions/passwordReset.js:85-98 | a rejected input is rejected whatever Firebase Auth would answer |
| PasswordReset.ConfirmPasswordResetAsWritten | functions/passwordReset.js:99-147 | as written, the call never succeeds, and bad input is still invalid-argument |
| PasswordReset.ValidResetFailsAsWritten | functions/passwordReset.js:99-147 | as written, every input that passes the checks ends in internal, where the intended flow answers with the code's address |
| PasswordReset.ResetExampleFailsAsWritten | functions/passwordReset.js:99-147 | as written, the code "abc" with the password "password" ends in internal |
| Text.Trim | functions/submitMenuSelection.js:100 | the trimmed text is no longer than the input and neither starts nor ends with whitespace |
| Text.TrimIdempotent | functions/submitMenuSelection.js:100 | trimming twice is trimming once |
| Text.TrimmedString | functions/getOrganisationPayments.js:30-31 | a missing or falsy field reads as empty and a string is trimmed; the role checks of `functions/assignFreeCredits.js:45` read the same way |
| Text.BlankIffAllSpace | functions/assignFreeCredits.js:29 | text trims to nothing exactly when it is all whitespace |
| Text.EmailShapeHasOneAt | functions/createSalesPersonAccount.js:79-82 | an accepted e-mail has no whitespace and exactly one `@`, neither first nor last |
| Text.NatToStringInjective | functions/assignFreeCredits.js:145 | different counts are written differently |
| Text.Utf16Length | functions/passwordReset.js:38-43 | a string's JavaScript length lies between its code-point count and twice that |

## Left out

- Randomness: invitation tokens, document ids, new Auth user ids and the
  free-credit transaction id are parameters.
- Clocks: "now" is a parameter. Server timestamps and the conversion to
  ISO strings are not modelled.
- E-mail through Postmark is an outcome given as a parameter. Subjects,
  HTML and text bodies, sender and stream are left out. Only the escaper
  used on the guest's name is modelled.
- Firebase Auth is a map of accounts keyed by e-mail plus outcomes given
  as parameters. Link generation and custom claims beyond role and
  sales-person id are outcomes or fields of that map.
- Firebase Auth matches e-mail addresses without regard to case. The
  model's accounts are keyed by the exact address text, so `Ann@x.com`
  does not find an account created for `ann@x.com`.
- SalesPeople.Directory.EnsureAccount: an address that differs from an
  existing account's only in letter case gets a second account, where
  Firebase Auth would find the existing one and set its claims.
- SuperAdmins.Directory.HandleCreate: an address that differs from an
  existing account's only in letter case gets a second account, where
  Firebase Auth would find and reuse the existing one.
- A callable invoked with no data receives `null`. Destructuring it
  throws a TypeError, which the handlers report as internal. Each payload
  is read from a document, so this input is not represented:
- SuperAdmins.Admit: cannot yield internal for a call with no data
  (`functions/manageSuperAdmin.js:59`).
- SalesPeople.Admit: cannot yield internal for a call with no data
  (`functions/createSalesPersonAccount.js:60`).
- PasswordReset.VerifyPasswordResetCode: cannot yield internal for a
  call with no data (`functions/passwordReset.js:24`).
- PasswordReset.ConfirmPasswordReset: cannot yield internal for a call
  with no data (`functions/passwordReset.js:83`).
- MenuSubmission.Transition: companions are records, so a null or
  non-object companion entry, on which reading `demographicSubmitted`
  throws (`functions/submitMenuSelection.js:80-81`), is not represented.
- MenuSubmission.CheckArguments: the invitation id is a string, so a
  truthy non-string id, on which the document lookup throws
  (`functions/submitMenuSelection.js:40`), is not represented.
- MenuCatalog.SelectedMenuItems: the invitation id is a string, so a
  truthy non-string id, on which the document lookup throws
  (`functions/getSelectedMenuItemsForInvitation.js:155`), is not
  represented.
- Firestore queries are given as sequences or as functions from a batch
  of ids to documents. Their ordering and index behaviour are not
  modelled.
- Transactions retry under contention in Firestore. The model runs each
  transaction once, with no concurrency.
- Store failures are not modelled, except the update of a missing user
  profile in `createSalesPersonAccount`.
- `encodeURIComponent` and `new URL` are abstract. `Invitations.Link`
  takes already encoded parts.
- Numbers are JavaScript doubles only where a guard reads them.
  NaN, infinities and rounding are not modelled. `toString` of
  non-integer numbers, arrays and objects is read as the empty text.
- Case folding is ASCII only.
- Logging and console output are left out, except the invitation log
  document that `sendInvitations` writes.
- Fields that are always null in the written records are not
  represented.
- MenuCatalog.Chunk: requires a positive size. The only caller passes 10.
- MenuCatalog.CollapseSpaces: states only that the text does not grow
  and that text without whitespace is unchanged, not that runs of
  whitespace shrink to one space.
- MenuCatalog.SpaceBeforeCapitals: states only that text without
  capitals is unchanged.
- MenuCatalog.ItemOf: its own contract states only the id. The other
  fields are stated through the lemmas on the normaliser, the label and
  the classifier.
- Payments.GetOrganisationPayments: object keys that coincide with
  inherited property names (such as `constructor`) are treated as
  ordinary keys.
- SuperAdmins.Directory.HandleCreate: an Auth failure while updating an
  already existing account's claims or profile is not modelled.
  Only the creation of a new account can fail.
- SuperAdmins.Directory.ManageSuperAdmin: its contract covers refusal,
  the action answered and the password reset. The effects of the other
  four actions are stated on the handler methods it dispatches to.
- SalesPeople.Directory.CreateSalesPersonAccount: its contract covers
  the refusals and the new profile's presence. The full new state is
  stated on `SalesPeople.Directory.Provision`.
- SalesPeople.Directory.Provision: the reply message after a resend says
  "resent" even when the account had to be created. The message is
  modelled but no contract states it.
- MenuCatalog.InOrderFollowsSelection: states the corrected walk, which
  pushes only own entries of the map by id. The walk as written also
  pushes inherited members; see "## Findings".
- MenuCatalog.OrderItems: computes the corrected walk; see
  "## Findings".
- MenuCatalog.SelectedMenuItemsInEventOrder: states the reply of the
  corrected walk; see "## Findings".
- MenuCatalog.GetSelectedMenuItemsForInvitation: returns the reply of the
  corrected walk; see "## Findings".
- MenuCatalog.InOrderAsWritten: of the members a plain object inherits,
  it models the seven ordinary methods of `Object.prototype`. Ids of the
  `__name__` form, such as `__proto__`, are reserved by Firestore and
  cannot be menu item ids.
- PasswordReset.ConfirmPasswordReset: states the intended flow, with the
  lookup and the reset as parameters. As written the lookup always
  throws; see "## Findings".
- PasswordReset.VerifyPasswordResetCode: the comment at
  `functions/passwordReset.js:15` says the Admin SDK lacks this
  verification. The model follows the code, which checks only the
  format.
- `cleanupDuplicateUsers.js` is not part of this model.

## Findings

| source | as written | input that shows it | evidently intended | confidence | as-written member | corrected member |
|---|---|---|---|---|---|---|
| functions/getSelectedMenuItemsForInvitation.js:91 | `map[lower]` reads a plain object literal, so inherited members are found too | a menu item whose category is `constructor` or `__proto__` gets a function or an object as its category key instead of a known key | only the table's own spellings resolve; anything else falls through to the label-based fallback, so the result is always a known category key (`other` for `constructor`) | not executed | MenuCatalog.InheritedNamesEscapeTheKeySet | MenuCatalog.NormalizeCategoryKey |
| functions/getSelectedMenuItemsForInvitation.js:229 | `mapById[id]` reads a plain object, so an inherited member such as `toString` counts as found and is pushed | an event whose selected ids include `toString` while no menu item has that id: the reply lists the inherited function as an item | only menu items fetched for the selection are listed, in selection order | not executed | MenuCatalog.InheritedIdsReachTheItems | MenuCatalog.InOrderFollowsSelection |
| functions/passwordReset.js:101-110 | `getAuth()` is the Admin SDK's Auth, which has no `verifyPasswordResetCode` or `confirmPasswordReset`, so the call throws a TypeError and the catch reports internal | the code "abc" with the password "password" | the code is checked, the password reset, and the code's address returned | not executed | PasswordReset.ValidResetFailsAsWritten | PasswordReset.ConfirmPasswordReset |
