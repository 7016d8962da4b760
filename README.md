# Prompterly backend core, modelled in Dafny

Prompterly is a FastAPI and SQLAlchemy backend for mentor-led "lounges".
Users register and sign in with passwords, one-time codes or Google. Mentors
run lounges that users join, free or paid through Stripe subscriptions. Inside
a lounge a user chats with an AI mentor that draws on a knowledge base and on
the user's own notes. Users keep notes and time capsules that unlock at a
chosen date. Administrators manage users, mentors, revenue reports, content
pages, FAQs, notifications, the newsletter and a public chatbot. Alembic
revisions evolve the MySQL schema.

This project models that backend's business logic with the database, Stripe,
the language model, object storage and mail taken away. Each in-memory table
is a `seq` of records held by a class, and each route or service method
becomes a method on that class. Its `ensures` ties the new tables to a
function of the old ones, and lemmas prove what the service promises about
those functions. Pure code (validators, the ORM's computed properties,
pagination, status maps, the JWT admission chain) becomes datatypes,
functions and lemmas. The current time, generated identifiers and codes, and
answers from external services are parameters.

One Dafny module stands for each source file:

- `Common.dfy` holds shared vocabulary: optional values, timestamps, the Python
  string operations the code relies on, and filter/sort/page helpers that
  stand for SQL `WHERE`/`ORDER BY`/`OFFSET`/`LIMIT`. Whitespace (`strip`,
  `split`, `isspace`) is Python's full Unicode set; digits, letters and case
  mapping (`isdigit`, `isupper`, `isalnum`, `lower`, `upper`) cover the ASCII
  range only (see "## Left out").
- `models_*.dfy` cover the ORM classes and their computed properties.
- `schemas.dfy` covers the Pydantic request validators.
- The service and router modules each follow one file: `kb_chunker.dfy` and
  `kb_service.dfy` (knowledge base), `background_task_service.dfy`,
  `note_service.dfy` and `notes_api.dfy`, `chat_service.dfy` and
  `chat_api.dfy`, `billing_service.dfy` and `billing_api.dfy`,
  `lounges_api.dfy`, `auth_api.dfy`, `jwt.dfy`, `mentors_api.dfy`,
  `newsletter_api.dfy`, `notifications_api.dfy`, `cms_api.dfy`,
  `public_chatbot_service.dfy`, `lounge_resource_service.dfy`, `kb_api.dfy`,
  `users_api.dfy`, `admin_api.dfy`, `file_service.dfy`, `config.dfy`,
  `dependencies.dfy`, `exceptions.dfy` and `logging.dfy`.
- `calendar.dfy` holds civil dates and the date renderings the admin routes use.
- `csv.dfy` holds the export's comma-joined lines and a quoting encoding with its reader.
- `migrations.dfy` is the algebra of schema operations and
  `alembic_revisions.dfy` models each revision and the revision chain.
- `migrate_lounges.dfy` models the script that moves paid lounges to Stripe.

Where the code and its documentation disagree, the model follows the code.
Some routes fail as written: a missing import, an argument the callee does not
take, an attribute the ORM class does not map. Each of these is modelled as
written, and next to it stands the corrected behaviour that the rest of the
model uses; see "## Findings". One such failure is not modelled as written:
the clock helper `now_naive()` raises on every call, and the model assumes a
working clock instead (see the app/core/timezone.py line under "## Left out").

## Model

| member | source | states |
|---|---|---|
| AdminApi.SystemStatsOf | app/api/v1/admin.py:36-90 | the stats count every user, mentor and lounge, at most all subscriptions and users in the windowed counts, with both growth rates fixed at zero |
| AdminApi.StatsRevenueSucceededOnly | app/api/v1/admin.py:58-61 | a new payment adds its amount to total revenue exactly when its status is succeeded |
| AdminApi.StatsActiveUsersBounded | app/api/v1/admin.py:63-67 | when every message's author is a known user, the 30-day active user count is at most the number of users |
| AdminApi.UserRowOf | app/api/v1/admin.py:161-188 | a user's admin row copies id, email, name and role, and carries a subscription status exactly when the user has an active or trialing subscription |
| AdminApi.ListUsers | app/api/v1/admin.py:133-191 | the route returns one row per user of the filtered, ordered, paged listing, in order |
| AdminApi.ListedUsersSound | app/api/v1/admin.py:146-159 | the listing holds at most limit users, each matching the role and search filters, newest first |
| AdminApi.ListedUsersAll | app/api/v1/admin.py:146-159 | without filters and with a large enough limit, the listing is a permutation of all users |
| AdminApi.FindUserIndex | app/api/v1/admin.py:205-210 | the lookup finds an index holding the requested id, or none exists |
| AdminApi.RoleUpdate | app/api/v1/admin.py:193-237 | an unknown user gives 404, an unknown role 400, otherwise exactly that user's role and update time change and the reply carries the new role with zero counts |
| AdminApi.ParseRoleValueBack | app/api/v1/admin.py:215-219 | a role string that parses prints back to itself |
| AdminApi.RoleUpdateIdempotent | app/api/v1/admin.py:193-237 | repeating a successful role change succeeds again and changes only the update time |
| AdminApi.Deletion | app/api/v1/admin.py:239-270 | an unknown user gives 404, deleting oneself gives 400, otherwise exactly that user is removed |
| AdminApi.DeletionSound | app/api/v1/admin.py:239-270 | after a deletion there is one user fewer, the deleted id is gone, every other user remains and the admin survives |
| AdminApi.UserAdmin.constructor | app/api/v1/admin.py:193-270 | the user table starts as given with unique ids |
| AdminApi.UserAdmin.UpdateUserRole | app/api/v1/admin.py:193-237 | on error the table is unchanged and the error is returned; on success the table becomes the updated one; ids stay unique |
| AdminApi.UserAdmin.DeleteUser | app/api/v1/admin.py:239-270 | on error the table is unchanged and the error is returned; on success the user is removed; ids stay unique |
| AdminApi.Latest | app/api/v1/admin.py:291 | the latest timestamp belongs to one of the messages and no message is later |
| AdminApi.ActiveUserOf | app/api/v1/admin.py:286-298 | an active user's group keeps id, name and email and its last-active time is the latest of their recent messages |
| AdminApi.GroupedSound | app/api/v1/admin.py:286-298 | the grouping holds exactly one entry for each user with a message since the cut-off |
| AdminApi.UserActivityReport | app/api/v1/admin.py:272-332 | the route returns one activity row per leader, in leader order |
| AdminApi.ActivityLeadersSound | app/api/v1/admin.py:286-301 | at most 50 leaders, most recently active first, each an active user; with at most 50 active users every one of them is listed |
| AdminApi.ActivityRowsCountRecent | app/api/v1/admin.py:303-321 | every leader's row counts at least one recent message and its last activity is after the cut-off |
| AdminApi.Arpu | app/api/v1/admin.py:377 | the average revenue per user is the floor of revenue over subscriptions, and zero without subscriptions |
| AdminApi.RevenueRowOf | app/api/v1/admin.py:354-386 | a window's row is labelled by its start month, sums the succeeded payments inside the window and carries the average revenue per user |
| AdminApi.RevenueReport | app/api/v1/admin.py:346-389 | the report is the per-window rows, oldest first |
| AdminApi.RowBuilderFigures | app/api/v1/admin.py:354-386 | the row builder computes each window's row and label |
| AdminApi.ReportAsWrittenWindows | app/api/v1/admin.py:348-351 | as written, row k of the report covers the 30-day window ending (months - 1 - k) times 30 days before now |
| AdminApi.SumRevenueReverse | app/api/v1/admin.py:389 | reversing the rows keeps the revenue total |
| AdminApi.ThirtyDayRowsSum | app/api/v1/admin.py:348-358 | the 30-day windows tile the whole period, so their revenues add up to the succeeded payments of that period |
| AdminApi.ReportAsWrittenRevenueTotal | app/api/v1/admin.py:334-389 | as written, the report's total revenue equals the succeeded payments of the last months times 30 days |
| AdminApi.ReportAsWrittenRepeatsMonth | app/api/v1/admin.py:348-351 | as written, two 30-day windows ending 1 March 1970 both start in January and get the same period label |
| AdminApi.MonthStartDay | app/api/v1/admin.py:380 | the start of month index idx falls on the first of that month, and its month index is idx |
| AdminApi.ReportByMonthSound | app/api/v1/admin.py:334-389 | corrected by calendar months, the report has one row per month ending with the current one, each covering its whole month, with distinct period labels |
| AdminApi.MonthRowsDistinct | app/api/v1/admin.py:380 | rows built on calendar months carry pairwise distinct period labels |
| AdminApi.MonthLabelsDistinct | app/api/v1/admin.py:380 | two different months have different year-month labels |
| AdminApi.PendingMentorOf | app/api/v1/admin.py:410-420 | a pending application's entry copies the mentor's fields and the applicant's name and email |
| AdminApi.GetPendingMentors | app/api/v1/admin.py:391-422 | the route fails with 500 exactly when a pending mentor's user is missing, otherwise lists one entry per pending application in order |
| AdminApi.PendingApplicationsSound | app/api/v1/admin.py:404-406 | the pending list holds exactly the mentors awaiting approval, as a permutation, newest first |
| AdminApi.PendingMentorsWithIntegrity | app/api/v1/admin.py:410-415 | when every mentor's user exists, the route cannot fail |
| AdminApi.ExportFilename | app/api/v1/admin.py:443 | the export file name starts with users_export_ and ends with .csv |
| AdminApi.ExportAsWrittenSplitsName | app/api/v1/admin.py:436-441 | as written, a name with a comma makes the line split into more fields than the header has |
| AdminApi.UserFields | app/api/v1/admin.py:440 | a user's record has the header's six fields with email, name and role in place |
| AdminApi.UserRecords | app/api/v1/admin.py:439-440 | one record per user, in order |
| AdminApi.ExportRecords | app/api/v1/admin.py:436-441 | every exported record has six fields |
| AdminApi.ExportUsers | app/api/v1/admin.py:424-445 | the export carries the dated file name and the encoded document of all users |
| AdminApi.ExportNext | app/api/v1/admin.py:439-440 | exporting one more user appends exactly that user's encoded record |
| AdminApi.ExportRoundTrip | app/api/v1/admin.py:424-445 | corrected with quoting, parsing the export gives back the header and every user's record |
| AdminApi.ExportNamesReadBack | app/api/v1/admin.py:440 | every user's name is read back from its own record, commas included |
| AlembicRevisions.ChainAsWrittenBroken | alembic/versions/010_add_public_chatbot_tables.py:12-13 | as written, every revision names its predecessor except 010 and 012, whose parents name no revision, so the chain does not load |
| AlembicRevisions.ChainCorrectsTwoParents | alembic/versions/012_add_stripe_customer_id_to_users.py:11-12 | the corrected chain differs from the written one only in the parents of 010 and 012, which now name the preceding revision |
| AlembicRevisions.ChainLinear | alembic/versions/004_normalize_enum_values.py:10-11 | the corrected chain is linear, each revision naming the one before it, so it loads |
| AlembicRevisions.LinearLoads | alembic/versions/001_rename_metadata_column.py:13-14 | a linear chain, starting at a root, resolves every parent and loads |
| AlembicRevisions.Mirrors001 | alembic/versions/001_rename_metadata_column.py:18-27 | the downgrade undoes the upgrade's operations one by one, in reverse order |
| AlembicRevisions.RoundTrip001 | alembic/versions/001_rename_metadata_column.py:18-27 | on a well-formed schema where the upgrade succeeds, the downgrade restores the schema and its rows exactly |
| AlembicRevisions.Mirrors002 | alembic/versions/002_add_lounge_id_to_kb_tables.py:21-82 | the downgrade undoes the upgrade's operations one by one, in reverse order |
| AlembicRevisions.RoundTrip002 | alembic/versions/002_add_lounge_id_to_kb_tables.py:21-82 | on a well-formed schema where the upgrade succeeds, the downgrade restores the schema and its rows exactly |
| AlembicRevisions.Mirrors003 | alembic/versions/003_add_lounge_profile_image.py:21-36 | the downgrade undoes the upgrade's operations one by one, in reverse order |
| AlembicRevisions.RoundTrip003 | alembic/versions/003_add_lounge_profile_image.py:21-36 | on a well-formed schema where the upgrade succeeds, the downgrade restores the schema and its rows exactly |
| AlembicRevisions.Mirrors005 | alembic/versions/005_add_contact_messages_table.py:20-48 | the downgrade undoes the upgrade's operations one by one, in reverse order |
| AlembicRevisions.RoundTrip005 | alembic/versions/005_add_contact_messages_table.py:20-48 | on a well-formed schema where the upgrade succeeds, the downgrade restores the schema and its rows exactly |
| AlembicRevisions.Mirrors006 | alembic/versions/006_add_reply_to_id_to_chat_messages.py:20-48 | the downgrade undoes the upgrade's operations one by one, in reverse order |
| AlembicRevisions.RoundTrip006 | alembic/versions/006_add_reply_to_id_to_chat_messages.py:20-48 | on a well-formed schema where the upgrade succeeds, the downgrade's operations, each as Alembic states it, restore the schema and its rows exactly |
| AlembicRevisions.After006 | alembic/versions/006_add_reply_to_id_to_chat_messages.py:20-42 | the upgrade succeeds only on a chat_messages table without reply_to_id or the key's name, and adds exactly the key and the index on the new column to what the table had |
| AlembicRevisions.Down006RefusedAsWritten | alembic/versions/006_add_reply_to_id_to_chat_messages.py:45-46 | as written MySQL refuses the downgrade after any successful upgrade: its first operation drops the one index that serves the new key |
| AlembicRevisions.DropKeyIndexCommute | alembic/versions/006_add_reply_to_id_to_chat_messages.py:46-47 | dropping a foreign key and dropping an index of the same table succeed in either order and leave the same schema |
| AlembicRevisions.KeyFirstDowngrade | alembic/versions/006_add_reply_to_id_to_chat_messages.py:45-48 | dropping a key and then an index no remaining key needs runs under MySQL exactly as the index-first order runs without MySQL's refusal |
| AlembicRevisions.RoundTrip006Fixed | alembic/versions/006_add_reply_to_id_to_chat_messages.py:45-48 | with the key dropped before its index, MySQL runs the downgrade after a successful upgrade and it restores the schema and its rows exactly |
| AlembicRevisions.Mirrors007 | alembic/versions/007_add_lounge_subscriptions.py:20-90 | the downgrade undoes the upgrade's operations one by one, in reverse order |
| AlembicRevisions.RoundTrip007 | alembic/versions/007_add_lounge_subscriptions.py:20-90 | on a well-formed schema where the upgrade succeeds, the downgrade's operations, each as Alembic states it, restore the schema and its rows exactly |
| AlembicRevisions.After007Lounges | alembic/versions/007_add_lounge_subscriptions.py:20-40 | the first four operations add the three Stripe columns and their index to lounges, keep its keys, and leave no lounge_subscriptions table |
| AlembicRevisions.Lounges007 | alembic/versions/007_add_lounge_subscriptions.py:20-40 | the first four operations succeed only on a lounges table without stripe_product_id, keep its keys and add the index on the new column |
| AlembicRevisions.Up007CreatesElsewhere | alembic/versions/007_add_lounge_subscriptions.py:42-74 | every remaining upgrade operation acts on lounge_subscriptions alone |
| AlembicRevisions.After007Table | alembic/versions/007_add_lounge_subscriptions.py:42-74 | the remaining operations leave lounge_subscriptions with exactly its declared columns, its two foreign keys, its five indexes and no rows |
| AlembicRevisions.SubscriptionIndexNeeds | alembic/versions/007_add_lounge_subscriptions.py:79-81 | the composite index and the unique index are needed by no key, and once both are gone the lounge_id index is the only one serving the key on lounge_id |
| AlembicRevisions.SubscriptionDropsRefused | alembic/versions/007_add_lounge_subscriptions.py:79-81 | MySQL completes the first two index drops and refuses the third |
| AlembicRevisions.Down007RefusedAsWritten | alembic/versions/007_add_lounge_subscriptions.py:77-81 | as written MySQL refuses the downgrade after any successful upgrade |
| AlembicRevisions.Fixed007Runs | alembic/versions/007_add_lounge_subscriptions.py:84-90 | dropping lounge_subscriptions whole and then the lounges part runs under MySQL and ends where the written downgrade ends without MySQL's refusal |
| AlembicRevisions.RoundTrip007Fixed | alembic/versions/007_add_lounge_subscriptions.py:77-90 | with the table dropped whole, MySQL runs the downgrade after a successful upgrade and it restores the schema and its rows exactly, given that the lounges keys name lounges columns |
| AlembicRevisions.Mirrors008 | alembic/versions/008_add_lounge_id_to_notes.py:21-37 | the downgrade undoes the upgrade's operations one by one, in reverse order |
| AlembicRevisions.RoundTrip008 | alembic/versions/008_add_lounge_id_to_notes.py:21-37 | on a well-formed schema where the upgrade succeeds, the downgrade restores the schema and its rows exactly |
| AlembicRevisions.Mirrors009 | alembic/versions/009_add_lounge_resources.py:20-49 | the downgrade undoes the upgrade's operations one by one, in reverse order |
| AlembicRevisions.RoundTrip009 | alembic/versions/009_add_lounge_resources.py:20-49 | on a well-formed schema where the upgrade succeeds, the downgrade's operations, each as Alembic states it, restore the schema and its rows exactly |
| AlembicRevisions.After009 | alembic/versions/009_add_lounge_resources.py:20-40 | the upgrade creates lounge_resources with its declared columns, three foreign keys, two indexes and no rows |
| AlembicRevisions.Down009RefusedAsWritten | alembic/versions/009_add_lounge_resources.py:43-45 | as written MySQL refuses the downgrade after any successful upgrade: its first operation drops the one index serving the key on lounge_id |
| AlembicRevisions.RoundTrip009Fixed | alembic/versions/009_add_lounge_resources.py:43-49 | with the table dropped whole, MySQL runs the downgrade after a successful upgrade and it restores the schema and its rows exactly |
| AlembicRevisions.Mirrors011 | alembic/versions/011_add_rag_to_public_chatbot.py:19-33 | the downgrade undoes the upgrade's operations one by one, in reverse order |
| AlembicRevisions.RoundTrip011 | alembic/versions/011_add_rag_to_public_chatbot.py:19-33 | on a well-formed schema where the upgrade succeeds, the downgrade restores the schema and its rows exactly |
| AlembicRevisions.Mirrors012 | alembic/versions/012_add_stripe_customer_id_to_users.py:17-25 | the downgrade undoes the upgrade's operations one by one, in reverse order |
| AlembicRevisions.RoundTrip012 | alembic/versions/012_add_stripe_customer_id_to_users.py:17-25 | on a well-formed schema where the upgrade succeeds, the downgrade restores the schema and its rows exactly |
| AlembicRevisions.Mirrors013 | alembic/versions/013_add_about_and_brand_color_to_lounges.py:17-27 | the downgrade undoes the upgrade's operations one by one, in reverse order |
| AlembicRevisions.RoundTrip013 | alembic/versions/013_add_about_and_brand_color_to_lounges.py:17-27 | on a well-formed schema where the upgrade succeeds, the downgrade restores the schema and its rows exactly |
| AlembicRevisions.Mirrors014 | alembic/versions/014_add_newsletter_subscribers.py:18-40 | the downgrade undoes the upgrade's operations one by one, in reverse order |
| AlembicRevisions.RoundTrip014 | alembic/versions/014_add_newsletter_subscribers.py:18-40 | on a well-formed schema where the upgrade succeeds, the downgrade restores the schema and its rows exactly |
| AlembicRevisions.RoundTrip42fb | alembic/versions/20251218_1918_42fb2bd0a668_make_lounge_category_id_optional.py:19-30 | making lounges.category_id nullable and back restores the schema when no lounge has a null category |
| AlembicRevisions.DowngradeRefused42fb | alembic/versions/20251218_1918_42fb2bd0a668_make_lounge_category_id_optional.py:26-30 | the downgrade fails once a lounge has a null category |
| AlembicRevisions.AllLowering004 | alembic/versions/004_normalize_enum_values.py:16-60 | every step of the upgrade lower-cases one enum column |
| AlembicRevisions.Upgrade004Lowers | alembic/versions/004_normalize_enum_values.py:16-60 | after the upgrade every named column holds lower-case text, and no table or column is added or removed |
| AlembicRevisions.Upgrade004Idempotent | alembic/versions/004_normalize_enum_values.py:16-60 | running the upgrade twice is the same as running it once |
| AlembicRevisions.Downgrade004KeepsLowered | alembic/versions/004_normalize_enum_values.py:62-64 | the downgrade changes nothing, so a value that was upper-case is not restored |
| AlembicRevisions.Create010Empty | alembic/versions/010_add_public_chatbot_tables.py:18-47 | the upgrade creates the configuration table, absent before, with its columns and no rows |
| AlembicRevisions.Upgrade010SeedsOneConfig | alembic/versions/010_add_public_chatbot_tables.py:18-60 | after the upgrade the configuration table holds exactly the one seeded row |
| AlembicRevisions.SeededConfigValues | alembic/versions/010_add_public_chatbot_tables.py:49-60 | the seeded row has id 1, is enabled, carries the default welcome message and no avatar |
| AlembicRevisions.Mirrors010 | alembic/versions/010_add_public_chatbot_tables.py:18-68 | the downgrade drops, in reverse order, what the upgrade creates, and only drops |
| AlembicRevisions.DowngradeIgnoresSeed | alembic/versions/010_add_public_chatbot_tables.py:63-68 | the downgrade's result does not depend on the configuration table's rows |
| AlembicRevisions.RoundTrip010 | alembic/versions/010_add_public_chatbot_tables.py:18-68 | on a well-formed schema where the upgrade succeeds, the downgrade restores it exactly, seed row included |
| AuthApi.ClientIp | app/api/v1/auth.py:58-70 | the client address is the first hop of X-Forwarded-For when present, else the connection's host, else "unknown" |
| AuthApi.ClientIpFirstHop | app/api/v1/auth.py:66-68 | with several forwarded hops the address is the stripped first one |
| AuthApi.PurposeValue | app/api/v1/auth.py:108 | a one-time code's purpose is stored as "registration" or "password_reset" |
| AuthApi.PurposeValueInjective | app/api/v1/auth.py:108 | the two purposes are stored differently |
| AuthApi.Invalidate | app/api/v1/auth.py:106-111 | issuing a code marks exactly the address's pending codes of that purpose as used |
| AuthApi.IssueOtp | app/api/v1/auth.py:102-121 | issuing a code invalidates the pending ones and appends one that expires after ten minutes |
| AuthApi.InvalidateLeavesNonePending | app/api/v1/auth.py:106-111 | after invalidation no code of that address and purpose is pending |
| AuthApi.IssueLeavesOnePending | app/api/v1/auth.py:102-121 | after issuing, exactly one code of that address and purpose is pending |
| AuthApi.FindValidOtp | app/api/v1/auth.py:160-166 | the code lookup finds an unused, unexpired code of that address, value and purpose, and fails only when none exists |
| AuthApi.OnlyLatestCodeVerifies | app/api/v1/auth.py:102-166 | after a new code is issued only that code verifies, and only before it expires |
| AuthApi.MarkUsed | app/api/v1/auth.py:179 | verifying a code stamps only that code as used |
| AuthApi.CodeUsedOnce | app/api/v1/auth.py:160-179 | a code that has been verified cannot be verified again |
| AuthApi.RevokeOpen | app/api/v1/auth.py:521-530 | revocation stamps exactly the user's open sessions |
| AuthApi.RevokeEndsSessions | app/api/v1/auth.py:520-530 | after revocation none of the user's sessions is active, and other users' sessions are as before |
| AuthApi.RevokeIdempotent | app/api/v1/auth.py:520-530 | revoking twice equals revoking once |
| AuthApi.AddUserKeepsValid | app/db/models/user.py:24 | adding a user with an unused address keeps addresses unique and ids below the counter |
| AuthApi.ReplaceUserKeepsValid | app/db/models/user.py:24 | changing a user but not their address or id keeps the users valid |
| AuthApi.IndexOfEmail | app/api/v1/auth.py:509-512 | the user lookup by address finds the user with it, or none has it |
| AuthApi.WithPassword | app/api/v1/auth.py:519 | setting a password changes only the hash and the update time |
| AuthApi.LoginCheck | app/api/v1/auth.py:284-298 | login succeeds exactly for a known address, a matching password and an active account; an inactive account is reported as such, everything else as invalid credentials |
| AuthApi.LoginHidesUnknownEmail | app/api/v1/auth.py:287-293 | an unknown address and a wrong password give the same answer |
| AuthApi.RefreshUser | app/api/v1/auth.py:323-371 | refresh accepts only a decodable refresh token whose subject is a known user; an access token is refused as the wrong type |
| AuthApi.TokenTypesDisjoint | app/api/v1/auth.py:345-350 | a token that refreshes is not accepted as an access token, and the other way round |
| AuthApi.GoogleLoginUrl | app/api/v1/auth.py:608-632 | Google sign-in fails when no client id is configured, and otherwise points at Google's authorisation page with that client id |
| AuthApi.GoogleLink | app/api/v1/auth.py:635-772 | a Google answer without an address fails; a known Google account signs its user in, a known address gets the account linked, and otherwise a new user is created and linked |
| AuthApi.FindGoogleAccount | app/api/v1/auth.py:712-715 | the lookup finds a Google account with the Google user id, and none without one |
| AuthApi.NewGoogleUser | app/api/v1/auth.py:726-734 | a Google user is an active member with Google's address |
| AuthApi.NewVerifiedUser | app/api/v1/auth.py:182-188 | a user registered by code is an active member with the given address and name |
| AuthApi.GoogleLinkKeepsUsersValid | app/api/v1/auth.py:717-748 | Google sign-in keeps addresses unique, and links a known address to its existing user |
| AuthApi.AuthStore.SendRegistrationOtp | app/api/v1/auth.py:78-136 | a taken address is refused and changes nothing; otherwise a new code is issued |
| AuthApi.AuthStore.VerifyRegistrationOtp | app/api/v1/auth.py:139-206 | an invalid code or a taken address is refused and changes nothing; otherwise the code is used and a verified user appended |
| AuthApi.AuthStore.Register | app/api/v1/auth.py:209-265 | a taken address is refused; otherwise one new user is appended |
| AuthApi.AuthStore.Login | app/api/v1/auth.py:268-320 | a refused login changes nothing; a successful one opens one session for the user |
| AuthApi.AuthStore.VerifyEmail | app/api/v1/auth.py:374-411 | a bad token or unknown user is refused; an already verified user is unchanged; otherwise only that user's verification time is set |
| AuthApi.AuthStore.SendPasswordResetOtp | app/api/v1/auth.py:414-474 | the answer never reveals whether the address is known; a code is issued only for a known one |
| AuthApi.AuthStore.SetPasswordAndRevoke | app/api/v1/auth.py:514-530 | a password change updates that user's hash and revokes their open sessions |
| AuthApi.AuthStore.VerifyPasswordResetOtp | app/api/v1/auth.py:477-543 | an invalid code or unknown user is refused; otherwise the code is used, the password set and the user's sessions revoked |
| AuthApi.AuthStore.ResetPassword | app/api/v1/auth.py:559-605 | a bad token or unknown user is refused; otherwise the password is set and the user's sessions revoked |
| AuthApi.AuthStore.GoogleCallback | app/api/v1/auth.py:635-772 | a failed Google sign-in changes nothing; a successful one applies the link and opens a session |
| AuthApi.AuthStore.Logout | app/api/v1/auth.py:775-806 | logout revokes the user's open sessions and changes nothing else |
| AuthApi.AuthRouterImportFailsAsWritten | app/api/v1/auth.py:40 | the router imports EmailOTP, which the auth models do not define |
| AuthApi.AuthRouterImportsResolve | app/db/models/auth.py:11-42 | with the code table defined, every name the router imports resolves |
| BackgroundTaskService.RunAppend | app/services/background_task_service.py:20-44 | feeding two batches of events is feeding their concatenation |
| BackgroundTaskService.NoSkipTagsKeepsAllData | app/services/background_task_service.py:27-44 | without script or style tags every piece of data is kept in order, with the block tags' line breaks |
| BackgroundTaskService.SkippedDataDropped | app/services/background_task_service.py:33-44 | while skipping, data is dropped and only block-tag line breaks are added |
| BackgroundTaskService.ScriptElementDropped | app/services/background_task_service.py:27-44 | a script element's text never reaches the collected parts |
| BackgroundTaskService.NonWsAppend | app/services/background_task_service.py:46-51 | the visible characters of a concatenation are those of its parts |
| BackgroundTaskService.SpaceRunLen | app/services/background_task_service.py:49 | the length of the leading whitespace run: all whitespace, and the next character is not |
| BackgroundTaskService.LastNewline | app/services/background_task_service.py:49 | the last newline of the text, or None when there is none |
| BackgroundTaskService.BlankLinesBecomeTwo | app/services/background_task_service.py:49 | a newline, whitespace and a newline become exactly two newlines |
| BackgroundTaskService.NoNewlineUnchanged | app/services/background_task_service.py:49 | text without newlines passes the blank-line pass unchanged |
| BackgroundTaskService.CollapseBlankLinesKeepsText | app/services/background_task_service.py:49 | the blank-line pass keeps every visible character in order |
| BackgroundTaskService.BlankRunHasNoText | app/services/background_task_service.py:49 | the newline and whitespace a blank-line match consumes carry no visible text |
| BackgroundTaskService.DropRun | app/services/background_task_service.py:50 | drops exactly the leading run characters, keeping a suffix |
| BackgroundTaskService.CollapseRuns | app/services/background_task_service.py:50 | no two run characters stay adjacent, and empty text stays empty |
| BackgroundTaskService.CollapseRunsKeepsText | app/services/background_task_service.py:50 | collapsing whitespace runs keeps every visible character in order |
| BackgroundTaskService.StripIsSlice | app/services/background_task_service.py:51 | `strip()` removes only whitespace at both ends and returns the slice in between |
| BackgroundTaskService.StripKeepsText | app/services/background_task_service.py:51 | stripping keeps every visible character |
| BackgroundTaskService.CleanText | app/services/background_task_service.py:46-51 | the cleaned text has no edge whitespace and no double space |
| BackgroundTaskService.StripNoDoubleSpace | app/services/background_task_service.py:51 | stripping keeps a text free of double spaces |
| BackgroundTaskService.CleanTextKeepsText | app/services/background_task_service.py:46-51 | the clean-up never loses or reorders visible text |
| BackgroundTaskService.HtmlTextExtractor.constructor | app/services/background_task_service.py:22-25 | a new parser has no parts and is not skipping |
| BackgroundTaskService.HtmlTextExtractor.HandleStartTag | app/services/background_task_service.py:27-33 | a start tag adds a newline for block tags and starts skipping for script and style |
| BackgroundTaskService.HtmlTextExtractor.HandleEndTag | app/services/background_task_service.py:35-40 | an end tag stops skipping for script and style and adds a newline after headings and paragraphs |
| BackgroundTaskService.HtmlTextExtractor.HandleData | app/services/background_task_service.py:42-44 | data is kept unless skipping |
| BackgroundTaskService.HtmlTextExtractor.Feed | app/services/background_task_service.py:62-63 | feeding runs the handlers once per event, in order |
| BackgroundTaskService.HtmlTextExtractor.GetText | app/services/background_task_service.py:46-51 | no edge whitespace, no double spaces, and exactly the visible text of the collected parts, in order |
| BackgroundTaskService.RemoveTags | app/services/background_task_service.py:68 | text without `<` is left as it is |
| BackgroundTaskService.StripHtmlTags | app/services/background_task_service.py:54-71 | empty input gives ""; input without `<` comes back unchanged; otherwise the parser's cleaned text, or the regex fallback when parsing fails; never edge whitespace |
| BackgroundTaskService.FallbackCollapsesWhitespace | app/services/background_task_service.py:68-70 | the fallback leaves no two whitespace characters side by side |
| BackgroundTaskService.Views | app/services/background_task_service.py:117-122 | one dictionary per job, in order |
| BackgroundTaskService.ActiveJobs | app/services/background_task_service.py:108-122 | exactly the PENDING or PROCESSING jobs matching a non-empty entity type and a non-zero entity id, newest first |
| BackgroundTaskService.RecentJobs | app/services/background_task_service.py:124-134 | at most `limit` jobs, newest first, all of the given type when one is given; when no more than `limit` jobs match, every matching job is listed |
| BackgroundTaskService.JobService.constructor | app/services/background_task_service.py:78-79 | an empty job table |
| BackgroundTaskService.JobService.CreateJob | app/services/background_task_service.py:81-102 | one new PENDING job with progress 0 and the given step count is added under the next id |
| BackgroundTaskService.JobService.GetJob | app/services/background_task_service.py:104-106 | a job with the id, or null exactly when there is none |
| BackgroundTaskService.JobService.GetActiveJobs | app/services/background_task_service.py:108-122 | the dictionaries of the active jobs as specified by ActiveJobs |
| BillingApi.TwoDigits | app/api/v1/billing.py:47 | a cents remainder below 100 is written as exactly two digits of its value |
| BillingApi.CentsTextValue | app/api/v1/billing.py:47 | the two-decimal price text of a non-negative amount reads back as that amount of cents |
| BillingApi.CentsTextNegative | app/api/v1/billing.py:47 | a negative amount is written as a minus sign before the text of its magnitude |
| BillingApi.IntervalName | app/api/v1/billing.py:47 | the interval shown in a price is "monthly" exactly for the monthly interval |
| BillingApi.PriceDisplayShape | app/api/v1/billing.py:47 | a plan's price display starts with a dollar sign and ends with "/" and its interval |
| BillingApi.ListPlansRoute | app/api/v1/billing.py:33-62 | the plans route lists exactly the active plans in order, each with its price display |
| BillingApi.CheckoutRoute | app/api/v1/billing.py:65-99 | a refused checkout answers 400 with the refusal, a Stripe failure answers 500, and success returns Stripe's session |
| BillingApi.PortalRoute | app/api/v1/billing.py:195-220 | the portal route returns Stripe's session for a known user; every failure, the unknown user included, answers 500 |
| BillingApi.PlanById | app/api/v1/billing.py:122 | the subscription's plan is found by its id, or none has it |
| BillingApi.RenewalDays | app/api/v1/billing.py:126-128 | the days until renewal are the whole days left, never negative |
| BillingApi.GetSubscriptionAgrees | app/api/v1/billing.py:102-143 | the subscription route answers null exactly when the user has no active subscription, and otherwise shows their active subscription with its days until renewal |
| BillingApi.CancelRoute | app/api/v1/billing.py:146-192 | cancel answers 404 exactly when there is no active subscription; an immediate cancel shows it canceled, a deferred one still active until renewal; other failures answer 500 |
| BillingApi.ListPaymentsRoute | app/api/v1/billing.py:223-257 | the payments route shows the user's payment history, at most limit entries, each with its amount display |
| BillingApi.ListInvoicesRoute | app/api/v1/billing.py:331-392 | invoices are empty without an active subscription or a real Stripe id or on an invalid request; other Stripe errors answer 500; otherwise Stripe's invoices with upper-cased currency |
| BillingApi.NoLoungeHandlerAsWritten | app/api/v1/billing.py:302-319 | no event type reaches a lounge handler in the webhook as written |
| BillingApi.Handlers | app/api/v1/billing.py:302-319 | apart from checkout completion, events reach the plan handlers, and subscription updates also the lounge handler |
| BillingApi.LoungeCheckoutLostAsWritten | app/api/v1/billing.py:302-303 | as written, a completed lounge checkout goes to the plan handler, which cannot read it |
| BillingApi.LoungeCheckoutRouted | app/services/billing_service.py:667-690 | a completed lounge checkout is routed to the lounge handler, which reads its user, lounge and plan |
| BillingApi.VerifyAsWritten | app/api/v1/billing.py:276-296 | as written, a bad payload or signature ends the webhook early, with no other case doing so |
| BillingApi.BadSignatureIs500AsWritten | app/api/v1/billing.py:284-330 | as written, the 400 for a bad payload or signature is caught by the outer handler and answered as 500 |
| BillingApi.StripeWebhook | app/api/v1/billing.py:260-330 | a bad payload or signature answers 400; handled events update exactly the tables their handler names; unhandled events change nothing and succeed |
| BillingService.StatusMap | app/services/billing_service.py:263-271 | each Stripe status maps to the stored status the table names; any other or missing status becomes canceled; the result counts as active exactly for "active" and "trialing" |
| BillingService.StatusMapRoundTrip | app/services/billing_service.py:263-271 | the Stripe name of every stored status maps back to that status |
| BillingService.ParsePlanCheckout | app/services/billing_service.py:187-190 | a plan checkout's metadata is accepted only with integer user_id and plan_id; an absent or empty lounge_id gives no lounge |
| BillingService.PlanCheckoutRoundTrip | app/services/billing_service.py:121-125 | the metadata written by a plan checkout reads back as the same user, plan and (truthy) lounge |
| BillingService.PlanTypeOf | app/services/billing_service.py:687 | a lounge plan is monthly exactly when the metadata says "monthly"; any other word means yearly |
| BillingService.ParseLoungeCheckout | app/services/billing_service.py:679-687 | a lounge checkout's metadata is accepted only with integer user_id and lounge_id and a plan_type, whose plan it reads |
| BillingService.LoungeCheckoutRoundTrip | app/services/billing_service.py:644-649 | the metadata written by a lounge checkout reads back as the same user, lounge and plan type |
| BillingService.LoungeMetadataReadBack | app/services/billing_service.py:644-649 | lounge checkout metadata carries the user, the lounge and the plan type under their keys |
| BillingService.PlanHandlerRejectsLoungeMetadata | app/services/billing_service.py:187-190 | the plan-checkout handler cannot read a lounge checkout's metadata (it has no plan_id) |
| BillingService.ActivePlans | app/services/billing_service.py:42-54 | the listed plans are exactly the active ones |
| BillingService.FindActivePlan | app/services/billing_service.py:86-93 | the plan lookup finds an active plan with the id, and fails only when none exists |
| BillingService.UserSubscription | app/services/billing_service.py:400-421 | a user's subscription lookup finds an active or trialing one of theirs, and fails only when none exists |
| BillingService.CheckoutRefusal | app/services/billing_service.py:81-105 | checkout is refused for an unknown user, then for an unknown or inactive plan, then for a user already subscribed, and allowed otherwise |
| BillingService.CreateCheckoutSession | app/services/billing_service.py:56-139 | a refused checkout reports the refusal; otherwise the session is Stripe's answer to the plan's request, and a Stripe error becomes the checkout failure message |
| BillingService.CreatePortalSession | app/services/billing_service.py:141-174 | the portal needs an existing user; otherwise it returns Stripe's session or the portal failure message |
| BillingService.PaymentHistory | app/services/billing_service.py:423-444 | the history holds at most limit payments, all the user's, newest first |
| BillingService.PaymentHistoryComplete | app/services/billing_service.py:423-444 | with a limit above the table size the history holds every payment of the user |
| BillingService.LoungeProductRequest | app/services/billing_service.py:500-555 | a lounge product carries a monthly and a yearly recurring price at the lounge prices, each tagged with its plan type, and is named after the lounge |
| BillingService.CreateLoungeStripeProduct | app/services/billing_service.py:485-563 | creating a lounge product never refuses; it returns Stripe's ids or the product failure message |
| BillingService.UserLoungeSubscription | app/services/billing_service.py:922-946 | the lookup finds the user's active or trialing subscription to the lounge, and fails only when none exists |
| BillingService.UserLoungeSubscriptions | app/services/billing_service.py:948-977 | the list holds exactly the user's lounge subscriptions, the canceled ones only when asked for |
| BillingService.LoungeCheckoutPrice | app/services/billing_service.py:590-625 | a lounge checkout is refused in the source's order (unknown user, unknown lounge, free lounge, no product, bad plan type, missing price, already subscribed) and otherwise uses the price of the chosen plan |
| BillingService.CreateLoungeCheckoutSession | app/services/billing_service.py:565-665 | a refused lounge checkout reports the refusal; otherwise the session is Stripe's answer to the request carrying the lounge metadata, or the checkout failure message |
| BillingService.LoungeCheckoutMapped | app/services/billing_service.py:596-605 | with the product column mapped the checkout is CreateLoungeCheckoutSession; without it nothing reaches Stripe, the user, lounge and paid checks refuse as before, and every other request raises the AttributeError |
| BillingService.LoungeCheckoutRaisesAsWritten | app/services/billing_service.py:605 | as written every checkout that passes the user, lounge and paid checks raises, so none succeeds; with the added columns mapped it is the corrected checkout |
| BillingService.LoungePeriod | app/services/billing_service.py:703-728 | the period comes from Stripe's period object, then from its direct fields, and without either runs from now for 30 or 365 days by plan |
| BillingService.FallbackPeriodDays | app/services/billing_service.py:720-728 | the fallback period renews 365 days out for a yearly plan and 30 for a monthly one |
| BillingService.ApplyEvent | app/services/billing_service.py:271-288 | an update sets the mapped status and keeps the renewal and cancellation dates when the event carries none |
| BillingService.ApplyEventIdempotent | app/services/billing_service.py:271-288 | applying the same subscription update twice equals applying it once |
| BillingService.FindByStripeId | app/services/billing_service.py:250-260 | the lookup finds the subscription with that Stripe id, and fails only when none has it |
| BillingService.FindLoungeByStripeId | app/services/billing_service.py:786-795 | the lookup finds the lounge subscription with that Stripe id, and fails only when none has it |
| BillingService.UpdateSubscriptions | app/services/billing_service.py:238-296 | an update event changes only the row with its Stripe id, keeps every row's identity, and changes nothing when no row matches |
| BillingService.UpdateSubscriptionsIdempotent | app/services/billing_service.py:238-296 | a repeated subscription update event changes nothing further |
| BillingService.EnsureMember | app/services/billing_service.py:213-230 | a membership is added only when the user has no active one in the lounge, and afterwards they have one |
| BillingService.EnsureMemberKeepsOne | app/services/billing_service.py:213-230 | adding a membership keeps at most one active membership per user and lounge |
| BillingService.EndMembership | app/services/billing_service.py:830-840 | ending a membership stamps left_at only on the user's active membership in that lounge, leaving them without one and the lounge one member fewer |
| BillingService.UpdateLoungeSubscriptions | app/services/billing_service.py:773-845 | a lounge update event changes only the matching row's status and dates, and ends the membership when the subscription newly becomes canceled |
| BillingService.UpdateLoungeSubscriptionsIdempotent | app/services/billing_service.py:773-845 | a repeated lounge update event changes nothing further, whatever the time |
| BillingService.AppendFreshStripeId | app/db/models/billing.py:96 | adding a subscription with an unused Stripe id keeps the ids unique |
| BillingService.AppendFreshLoungeStripeId | app/db/models/billing.py:185 | adding a lounge subscription with an unused Stripe id keeps the ids unique |
| BillingService.PlanCheckoutRow | app/services/billing_service.py:187-206 | a completed plan checkout yields an active subscription for the metadata's user and plan over Stripe's period, when the metadata, the retrieved subscription and a fresh Stripe id allow it |
| BillingService.LoungeCheckoutRow | app/services/billing_service.py:679-742 | a completed lounge checkout yields an active lounge subscription for the metadata's user, lounge and plan with Stripe's price and period |
| BillingService.PlanCheckoutKeepsValid | app/services/billing_service.py:198-230 | recording a plan checkout keeps ids below the counter, Stripe ids unique and one active membership per user and lounge |
| BillingService.LoungeCheckoutKeepsValid | app/services/billing_service.py:731-765 | recording a lounge checkout keeps the tables' invariants |
| BillingService.CompletePlanCheckout | app/services/billing_service.py:176-236 | a plan checkout appends its subscription and, for a lounge, ensures membership; a failure changes nothing; the tables stay valid |
| BillingService.CompleteLoungeCheckout | app/services/billing_service.py:667-771 | a lounge checkout appends its subscription and ensures membership; a failure changes nothing; the tables stay valid |
| BillingService.CustomerUser | app/services/billing_service.py:316-318 | the user found for a Stripe customer carries that customer id, and none is found only when no user carries it |
| BillingService.RecordPaymentAsWritten | app/services/billing_service.py:320-336 | as written: a payment is committed only for user 0, and only when a user 0 exists and the intent id is new, because MySQL refuses the insert otherwise and the error is swallowed |
| BillingService.RecordPayment | app/services/billing_service.py:310-336 | corrected: a payment is committed exactly when the intent has a customer, a user carries it and the intent is new; the row names that user, so the foreign key holds |
| BillingService.PaymentLostAsWritten | app/db/models/billing.py:140 | with user ids starting at 1, as written no payment is ever committed, while the corrected handler commits one for a known customer |
| BillingService.BillingStore.constructor | app/services/billing_service.py:38-40 | a new store holds the given plans and memberships and no subscriptions or payments |
| BillingService.BillingStore.HandleCheckoutCompleted | app/services/billing_service.py:176-236 | the webhook records the active subscription and the lounge membership, or changes nothing on failure |
| BillingService.BillingStore.HandleSubscriptionUpdated | app/services/billing_service.py:238-296 | the webhook applies the update to the matching subscription only and reports whether one matched |
| BillingService.BillingStore.HandlePaymentSucceeded | app/services/billing_service.py:298-336 | corrected: a payment with a customer is recorded, with the upper-cased currency, for the user carrying that Stripe customer id unless its intent id is already stored; no customer or no such user records nothing; other tables are untouched |
| BillingService.BillingStore.CancelSubscription | app/services/billing_service.py:338-398 | without an active subscription cancel is refused; an immediate cancel makes it canceled now, otherwise it stays active and cancels at renewal; a Stripe error changes nothing |
| BillingService.BillingStore.HandleLoungeCheckoutCompleted | app/services/billing_service.py:667-771 | the webhook records the active lounge subscription and leaves the user an active member, or changes nothing on failure |
| BillingService.BillingStore.HandleLoungeSubscriptionUpdated | app/services/billing_service.py:773-845 | the webhook applies the lounge update and, on a new cancellation, removes the user from the lounge |
| BillingService.BillingStore.CancelLoungeSubscription | app/services/billing_service.py:847-920 | without an active lounge subscription cancel is refused; an immediate cancel also ends the membership, a deferred one cancels at renewal; a Stripe error changes nothing |
| BillingService.BillingStore.UpgradeLoungeSubscription | app/services/billing_service.py:979-1073 | only an active monthly subscription to a lounge with a yearly price is upgraded, to the yearly plan and price with Stripe's renewal date; afterwards a second upgrade is refused as already yearly |
| BillingService.UpgradeRefusal | app/services/billing_service.py:1002-1024 | the upgrade is refused without an active subscription, for a yearly one, for an unknown lounge or one without a yearly price, and allowed otherwise |
| BillingService.UpgradeChecksMapped | app/services/billing_service.py:1008-1024 | with the yearly-price column mapped the upgrade goes on to Stripe exactly when UpgradeRefusal finds nothing; without it nothing goes on, the first three refusals stay, and a monthly subscription to an existing lounge raises the AttributeError |
| BillingService.UpgradeRaisesAsWritten | app/services/billing_service.py:1023 | as written no upgrade reaches Stripe: exactly the requests the corrected checks pass or refuse for the missing yearly price raise; with the added columns mapped the checks are UpgradeRefusal's |
| Calendar.DateRoundTrip | app/api/v1/admin.py:380 | a valid civil date converted to a day count and back is the same date |
| Calendar.DateOf | app/api/v1/admin.py:380 | every day count maps to a valid civil date that counts back to it |
| Calendar.DayOf | app/api/v1/admin.py:380 | every timestamp falls on a valid civil date |
| Calendar.DayStamp | app/api/v1/admin.py:443 | the year-month-day stamp is at least eight decimal digits |
| Calendar.DateTimeText | app/api/v1/admin.py:440 | the printed timestamp is at least nineteen characters long |
| Calendar.MonthLabelSameMonth | app/api/v1/admin.py:380 | two timestamps of years 0 to 9999 get the same year-month label exactly when they fall in the same calendar month |
| ChatApi.StatusValue | app/api/v1/chat.py:57-58 | the status filter compares the stored status value, which is "open" exactly for open threads |
| ChatApi.LoungeTitle | app/api/v1/chat.py:85 | a thread summary shows a title only for a thread in an existing lounge, and it is that lounge's title |
| ChatApi.Summaries | app/api/v1/chat.py:64-86 | each listed thread gets its own summary, in order |
| ChatApi.QueryThreads | app/api/v1/chat.py:50-58 | the query keeps exactly the user's threads that pass the lounge and status filters |
| ChatApi.Summarize | app/api/v1/chat.py:64-86 | the loop builds exactly the summaries of the page |
| ChatApi.ListThreads | app/api/v1/chat.py:35-86 | the route returns the summaries of the chosen page of the user's filtered threads |
| ChatApi.ThreadListSound | app/api/v1/chat.py:50-62 | at most limit threads, all the user's and filtered, newest first; with no skip and few enough threads, all of them |
| ChatApi.SummaryFacts | app/api/v1/chat.py:67-84 | a thread's last-message time is absent exactly when it has no messages, and otherwise is the latest message's time |
| ChatApi.SenderOfCases | app/api/v1/chat.py:163-172 | an AI message is from "AI Coach"; a user message shows its user's name and avatar when that user exists; others show no sender |
| ChatApi.FindMessage | app/api/v1/chat.py:176 | the replied-to message is found by id, or none has it |
| ChatApi.ReplyToFacts | app/api/v1/chat.py:176-190 | a reply block appears exactly for a reply to an existing message, with its id, sender and content cut to 100 characters plus "..." |
| ChatApi.ReplyPreviewIff | app/api/v1/chat.py:187 | the preview is cut and marked exactly when the content is longer than 100 characters |
| ChatApi.ViewAttachments | app/api/v1/chat.py:174 | a message shows attachments exactly when its attachment count is positive, which is exactly when one is attached to it |
| ChatApi.Views | app/api/v1/chat.py:159-206 | each message gets its own view, in order |
| ChatApi.BuildViews | app/api/v1/chat.py:159-206 | the loop builds exactly the message views |
| ChatApi.FindThread | app/api/v1/chat.py:151-153 | the thread is found by id, or none has it |
| ChatApi.GetThreadRoute | app/api/v1/chat.py:128-229 | a thread the caller does not own is 404; otherwise its history page |
| ChatApi.HistoryOfSound | app/api/v1/chat.py:141-222 | the history shows at most limit of the thread's messages, oldest first, with the total count of the thread's messages |
| ChatApi.FileRow | app/api/v1/chat.py:343-344 | the lounge image's file is found by id, or none has it |
| ChatApi.AiSenderFacts | app/api/v1/chat.py:334-344 | the AI speaks as the lounge mentor's non-empty name or else "AI Coach", with the mentor's avatar or else the lounge image |
| ChatApi.SendMessageRouteAlwaysFailsAsWritten | app/api/v1/chat.py:320-327 | as written every valid send request fails with 500, because the body has no reply_to_id |
| ChatApi.SendMessageRoute | app/api/v1/chat.py:303-410 | an invalid body is 422 and a refused send 400, changing nothing; otherwise the user message and, when an answer was made, the AI message are appended and shown |
| ChatApi.UploadTypeRefusalIs500AsWritten | app/api/v1/chat.py:469-504 | as written a refused file type is reported as a 500 |
| ChatApi.UploadRoute | app/api/v1/chat.py:455-504 | a refused type or oversized file is 400 and a storage failure 500, storing nothing; otherwise the user's file is stored under its dated path |
| ChatApi.UploadTypeRefusalStatuses | app/api/v1/chat.py:469-504 | as written every refused type ends in a 500 |
| ChatApi.FileUrlRoute | app/api/v1/chat.py:507-531 | an unknown file is 404, a storage failure 500, and otherwise a one-hour presigned URL for its path |
| ChatApi.AsHttp | app/api/v1/chat.py:119-125 | a service refusal becomes an HTTP error with its message, and a success passes through |
| ChatApi.CreateThreadRoute | app/api/v1/chat.py:89-125 | a thread in a lounge the user has not joined is 400 and creates nothing; otherwise one new empty thread is added |
| ChatApi.UpdateThreadRoute | app/api/v1/chat.py:232-273 | a thread the caller does not own is 404; otherwise the patch is applied and the thread shown with its message count |
| ChatApi.DeleteThreadRoute | app/api/v1/chat.py:276-300 | a thread the caller does not own is 404; otherwise the thread and all its messages are gone |
| ChatApi.ChatRouterImportFailsAsWritten | app/api/v1/chat.py:17-28 | the router imports MessageUpdate and ReplyToInfo, which the chat schemas do not define |
| ChatApi.ChatRouterImportsResolve | app/api/v1/chat.py:17-28 | with those two classes defined, every name the router imports resolves |
| ChatService.DefaultTitleNumber | app/services/chat_service.py:56-60 | an untitled thread is called "Conversation" followed by one more than the user's thread count, and different counts give different titles |
| ChatService.DefaultTitleSplit | app/services/chat_service.py:60 | the default title is the prefix followed by the decimal count plus one |
| ChatService.NextDefaultTitleDiffers | app/services/chat_service.py:56-60 | after the user creates a thread, the next default title differs from the last one |
| ChatService.Last | app/services/chat_service.py:178-185 | the history window holds the smaller of the limit and the message count |
| ChatService.ConversationHistory | app/services/chat_service.py:161-200 | the loop builds exactly the conversation history of the thread |
| ChatService.TurnsShape | app/services/chat_service.py:187-198 | the history has one turn per user or AI message, each "user" or "assistant", each said in the thread |
| ChatService.TurnsCount | app/services/chat_service.py:187-198 | the history has one turn per user or AI message |
| ChatService.TurnsRoles | app/services/chat_service.py:187-198 | every turn's role is "user" or "assistant" |
| ChatService.TurnsSaid | app/services/chat_service.py:187-198 | every turn is the content of a message of the same role |
| ChatService.SaidInGrows | app/services/chat_service.py:187-198 | a turn said in some messages is still said in any larger set |
| ChatService.HistoryBounds | app/services/chat_service.py:161-200 | the history has at most limit turns, and a thread within the limit contributes all its turns |
| ChatService.ScoreNote | app/services/chat_service.py:240-243 | a note's score is the number of query words found in its lower-cased title and content, never more than the words |
| ChatService.RelevantExact | app/services/chat_service.py:238-246 | a scored note is kept exactly when it is a candidate with its true, positive score |
| ChatService.Snippets | app/services/chat_service.py:256-261 | one context snippet per top note |
| ChatService.ScoreCandidates | app/services/chat_service.py:238-246 | the loop keeps exactly the relevant notes with their scores |
| ChatService.SnippetParts | app/services/chat_service.py:256-261 | the loop builds exactly the context snippets |
| ChatService.GetRagContext | app/services/chat_service.py:202-269 | the note context is the one the definition gives for the user's RAG notes and the query |
| ChatService.TopNotesAreBest | app/services/chat_service.py:247-251 | at most three notes are used, all relevant, best first, and any relevant note left out scores no higher than every chosen one |
| ChatService.RelevantEmptyIff | app/services/chat_service.py:238-246 | no note is relevant exactly when every note scores zero |
| ChatService.RagContextNoneCases | app/services/chat_service.py:218-254 | there is no context exactly when the user has no RAG notes, the embedding fails or no note is relevant |
| ChatService.RagContextNoneIff | app/services/chat_service.py:218-269 | there is no context exactly when the embedding fails or every RAG note of the user scores zero |
| ChatService.ApplyThreadPatch | app/services/chat_service.py:338-342 | a patch never changes the thread's id, owner, lounge or creation time |
| ChatService.ThreadPatchLaws | app/services/chat_service.py:338-342 | an empty patch changes nothing, a patch applied twice equals once, and two patches compose field by field |
| ChatService.GenerateAnswer | app/services/chat_service.py:126-157 | the AI answer is the defined answer for the history and context, or none when generation fails |
| ChatService.Exchange | app/services/chat_service.py:112-159 | a send makes the user message, and an AI message right after it exactly when an answer was asked for and produced |
| ChatService.ChatStore.constructor | app/services/chat_service.py:21-23 | a new store holds no threads or messages |
| ChatService.ChatStore.OwnedThread | app/services/chat_service.py:99-107 | the lookup finds the thread with the id owned by the user, and fails only when the user owns none |
| ChatService.ChatStore.SendRefusal | app/services/chat_service.py:99-110 | a send is refused for a thread the user does not own, then for an archived one |
| ChatService.ChatStore.CreateThread | app/services/chat_service.py:25-73 | a thread in a lounge the user has not joined is refused; otherwise one thread with the given or default title is appended and owned by the user |
| ChatService.ChatStore.SendMessage | app/services/chat_service.py:75-159 | a refused send changes nothing; otherwise the user message and any AI answer are appended in order |
| ChatService.ChatStore.GetThreadMessages | app/services/chat_service.py:271-307 | messages of a thread the user does not own are refused; otherwise the requested page of the thread's messages |
| ChatService.ChatStore.UpdateThread | app/services/chat_service.py:309-347 | a thread the user does not own is refused; otherwise only that thread is patched |
| ChatService.ChatStore.DeleteThread | app/services/chat_service.py:349-381 | a thread the user does not own is refused; otherwise it and its messages are removed and every other thread's messages are kept |
| ChatService.ThreadMessagesUnaffected | app/services/chat_service.py:349-381 | removing messages of other threads leaves a thread's messages as they were |
| ChatService.ThreadMessagesGone | app/db/models/chat.py:47-50 | after its messages are removed a thread has none |
| CmsApi.ListPagesSound | app/api/v1/cms.py:27-45 | the listing holds exactly the pages allowed by the published filter, most recently updated first |
| CmsApi.GetPage | app/api/v1/cms.py:48-70 | a slug without a published page gives 404, otherwise the route returns a published page with that slug |
| CmsApi.CreatePage | app/api/v1/cms.py:73-107 | a taken slug gives 400, otherwise exactly the new page is appended |
| CmsApi.CreatePageServed | app/api/v1/cms.py:73-107 | creating a page keeps slugs unique, and a published new page is then served under its slug |
| CmsApi.FindPage | app/api/v1/cms.py:123-129 | the lookup finds an index holding the requested id, or none exists |
| CmsApi.PatchPage | app/api/v1/cms.py:131-140 | each given field replaces the stored one, absent fields are kept, id and slug never change, and the update time is set |
| CmsApi.UpdatePage | app/api/v1/cms.py:110-145 | an unknown page gives 404, otherwise exactly that page is patched |
| CmsApi.UnpublishHides | app/api/v1/cms.py:110-145 | unpublishing a page hides it from the slug route and from the published listing |
| CmsApi.DeletePage | app/api/v1/cms.py:148-172 | an unknown page gives 404, otherwise exactly one page is removed and every other page remains |
| CmsApi.ListFaqsSound | app/api/v1/cms.py:175-194 | the listing holds exactly the FAQs of the requested category, in sort order |
| CmsApi.Distinct | app/api/v1/cms.py:207 | distinct values keep every value once |
| CmsApi.FaqCategories | app/api/v1/cms.py:197-209 | the categories are exactly those of some FAQ, each once |
| CmsApi.FindFaq | app/api/v1/cms.py:251-257 | the lookup finds an index holding the requested id, or none exists |
| CmsApi.PatchFaq | app/api/v1/cms.py:259-270 | each given field replaces the stored one, absent fields are kept, and the id never changes |
| CmsApi.UpdateFaq | app/api/v1/cms.py:238-274 | an unknown FAQ gives 404, otherwise exactly that FAQ is patched |
| CmsApi.UpdateFaqIdempotent | app/api/v1/cms.py:259-270 | an empty update changes nothing, and repeating an update is applying it once |
| CmsApi.DeleteFaq | app/api/v1/cms.py:277-300 | an unknown FAQ gives 404, otherwise exactly one FAQ is removed and every other FAQ remains |
| CmsApi.CmsStore.constructor | app/api/v1/cms.py:27-300 | the store starts without pages or FAQs |
| CmsApi.CmsStore.CreatePageRoute | app/api/v1/cms.py:73-107 | the page table grows by the new page on success and is unchanged on a taken slug; FAQs are untouched |
| CmsApi.CmsStore.UpdatePageRoute | app/api/v1/cms.py:110-145 | the page table becomes the patched one on success and is unchanged on 404; the reply is the stored page |
| CmsApi.CmsStore.DeletePageRoute | app/api/v1/cms.py:148-172 | the page table loses the page on success and is unchanged on 404 |
| CmsApi.CmsStore.CreateFaqRoute | app/api/v1/cms.py:212-235 | the FAQ table grows by exactly the new FAQ |
| CmsApi.CmsStore.UpdateFaqRoute | app/api/v1/cms.py:238-274 | the FAQ table becomes the patched one on success and is unchanged on 404 |
| CmsApi.CmsStore.DeleteFaqRoute | app/api/v1/cms.py:277-300 | the FAQ table loses the FAQ on success and is unchanged on 404 |
| Config.CorsOrigins | app/core/config.py:24-26 | there are never more origins than comma-separated pieces |
| Config.StrippedNonBlankMember | app/core/config.py:26 | an origin is listed exactly when it is the non-empty stripped form of some piece, and is itself stripped |
| Config.CorsOriginsExact | app/core/config.py:24-26 | every origin is non-empty and stripped, and the origins are exactly the non-empty stripped pieces of the setting |
| Config.CorsOriginsHaveNoComma | app/core/config.py:24-26 | no origin contains a comma |
| Config.AllowedFileExtensions | app/core/config.py:110-112 | there is at least one extension and none contains a comma |
| Config.AllowedFileExtensionsRoundTrip | app/core/config.py:110-112 | joining the extensions with commas gives back the setting |
| Config.MaxFileSizeBytes | app/core/config.py:114-116 | the byte limit is the megabyte limit times 1048576 |
| Config.MaxFileSizeFacts | app/core/config.py:107-116 | the default limit is 52428800 bytes, and the byte limit grows with the megabyte limit |
| Config.ParseBoolFacts | app/core/config.py:91-97 | a boolean passes through, strings are read case-insensitively, true, yes and 1 are true and the empty string, false and 0 are false |
| Csv.SplitPieces | app/api/v1/admin.py:440 | splitting on a separator gives one piece more than the separator's occurrences |
| Csv.EncodeRecord | app/api/v1/admin.py:438-440 | a quoted record starts with a quote and ends with a line break |
| Csv.RecordRoundTrip | app/api/v1/admin.py:438-440 | reading a quoted record back gives its fields and leaves the following text |
| Csv.DocumentRoundTrip | app/api/v1/admin.py:436-444 | reading a quoted document back gives every record, commas and quotes included |
| Csv.EncodeDocumentSnoc | app/api/v1/admin.py:439-440 | one more record appends exactly its encoding to the document |
| Dependencies.MakePagination | app/core/dependencies.py:194-201 | the page is at least one and the size at most the maximum, each kept when already in range |
| Dependencies.PagesTile | app/core/dependencies.py:203-209 | consecutive pages follow each other without gap or overlap, starting at offset zero |
| Dependencies.LowPagesAreFirst | app/core/dependencies.py:200 | every page number below one is the first page |
| Dependencies.NegativeSizeNegativeOffset | app/core/dependencies.py:200-205 | a negative page size passes through and gives a negative offset from the second page on |
| Dependencies.OptionalUser | app/core/dependencies.py:152-188 | a user is returned only for a two-part bearer header whose token decodes to the id of an active user |
| Dependencies.OptionalUserRefusals | app/core/dependencies.py:167-181 | no header, a header not of two parts, a scheme other than bearer, or an undecodable token or one without subject gives no user |
| Dependencies.RefreshTokenAdmittedHere | app/core/dependencies.py:175-185 | a refresh token admits its user through the header dependency although the bearer dependency refuses it |
| Exceptions.AppException | app/core/exceptions.py:11-22 | an application error keeps its message, code and status, with no details meaning an empty map |
| Exceptions.ToDict | app/core/exceptions.py:24-34 | the JSON body flags an error with the code and message, and carries details exactly when there are some |
| Exceptions.InvalidTokenError | app/core/exceptions.py:67-80 | an invalid token is a 401 INVALID_TOKEN error naming the token type |
| Exceptions.InsufficientPermissionsError | app/core/exceptions.py:134-144 | missing permissions are a 403 error naming the required role exactly when one is given |
| Exceptions.FieldDetails | app/core/exceptions.py:167-170 | a named field is added to the details, replacing only a previous field entry, and without a field the details are kept |
| Exceptions.ValidationError | app/core/exceptions.py:160-180 | every validation error has status 422 |
| Exceptions.ResourceNotFoundError | app/core/exceptions.py:255-270 | a missing resource is a 404 error whose message names the resource and whose details carry its id exactly when one is given |
| Exceptions.SubscriptionLimitExceededError | app/core/exceptions.py:326-339 | an exceeded limit is a 400 error carrying exactly the limit type, the current count and the maximum |
| Exceptions.ExternalServiceError | app/core/exceptions.py:355-369 | a failing external service is a 502 error naming the service, with a default message when none is given |
| Exceptions.RateLimitExceededError | app/core/exceptions.py:396-406 | a rate limit is a 429 error carrying the retry delay exactly when one is given |
| Exceptions.FamilyStatusCodes | app/core/exceptions.py:40-406 | every error family has its status: 401 authentication, 403 authorisation, 422 validation, 404 not found, 400 business, 502 external, 429 rate limit |
| Exceptions.FieldAlwaysReported | app/core/exceptions.py:167-170 | a validation error on a named field always reports that field in its body |
| Exceptions.ResponseAsWritten | app/main.py:124-134 | as written, an application error reaches the catch-all handler and is answered 500 |
| Exceptions.IntendedResponse | app/core/exceptions.py:24-34 | corrected, an application error is answered with its own status and its JSON body |
| Exceptions.InvalidCredentialsIs500AsWritten | app/api/v1/auth.py:289-293 | a wrong password is answered 500 as written where 401 INVALID_CREDENTIALS is intended |
| FileService.FileExtensionShape | app/services/file_service.py:69 | the extension of a name is the lower-cased text after its last dot |
| FileService.FileExtensionNoDot | app/services/file_service.py:69 | a name without a dot has an empty extension |
| FileService.FileExtensionFacts | app/services/file_service.py:69 | an extension holds no dot and is already lower-case |
| FileService.ValidateFileTypeCases | app/services/file_service.py:228-239 | a name is accepted exactly when its lower-cased extension is allowed, and a name without a dot only when the empty extension is |
| FileService.FileCategoryAgrees | app/services/file_service.py:241-265 | the category by MIME type agrees with the file record's image, video, audio and document tests, and is other when none holds |
| FileService.StoragePathParts | app/services/file_service.py:77-78 | the storage key starts with the folder and ends with the uuid, an underscore and the original name |
| FileService.ContentType | app/services/file_service.py:81-85 | the declared type is used when given, else the guessed type, else application/octet-stream; never empty |
| FileService.UploadRefusalOf | app/services/file_service.py:62-74 | an upload is refused exactly when it is over the size limit or its extension is not allowed, the size being checked first |
| FileService.TypeNotAllowedMessage | app/services/file_service.py:71-74 | the refusal message names the extension and ends with the allowed list |
| FileService.PresignedUrl | app/services/file_service.py:123-162 | an unknown file fails with File not found, a storage failure with its own error, otherwise the URL is presigned for the file's key |
| FileService.FileStore.constructor | app/services/file_service.py:24-33 | the store starts without files or objects |
| FileService.FileStore.GetFileInfo | app/services/file_service.py:211-226 | the lookup returns the file with that id, or none exists |
| FileService.FileStore.UploadFile | app/services/file_service.py:35-121 | an accepted upload that the bucket stores adds exactly one file row and one object; any refusal or storage error changes nothing and reports its message |
| FileService.FileStore.GetFileUrl | app/services/file_service.py:123-162 | the URL route fails exactly when the file is unknown or presigning fails, otherwise it presigns the stored key |
| FileService.FileStore.DeleteRefusal | app/services/file_service.py:184-190 | deletion is refused for an unknown file or one the caller does not own, and allowed exactly for the owner |
| FileService.FileStore.DeleteFile | app/services/file_service.py:164-209 | a refused or failing deletion changes nothing; a successful one removes exactly the file's row and object |
| FileService.RemoveKeepsRest | app/services/file_service.py:199-201 | removing a file keeps every other file and keeps ids and keys unique |
| Jwt.SubjectId | app/core/jwt.py:54-61 | a subject id is read exactly when the subject claim is present and a decimal number |
| Jwt.CurrentUser | app/core/jwt.py:18-68 | a token admits a user exactly when it decodes to an access token whose subject is a stored user; every refusal is 401, the token-type one exactly for non-access tokens |
| Jwt.CurrentActiveUser | app/core/jwt.py:71-92 | the active-user dependency admits exactly the admitted users whose e-mail is verified, and passes other refusals through |
| Jwt.CurrentMentor | app/core/jwt.py:95-116 | the mentor dependency admits exactly the active users whose role is mentor |
| Jwt.CurrentAdmin | app/core/jwt.py:119-140 | the admin dependency admits exactly the active users whose role is admin |
| Jwt.OptionalCurrentUser | app/core/jwt.py:159-160 | without credentials there is no user |
| Jwt.OptionalAgreesWithCurrent | app/core/jwt.py:143-181 | the optional dependency finds a user exactly when the required one admits it, and the same user |
| Jwt.AdmissionChain | app/core/jwt.py:95-140 | a mentor or admin admitted is the token's user, active and of that role, and no user is admitted as both |
| Jwt.RefreshTokenRefused | app/core/jwt.py:48-53 | a refresh token is refused with 401 Invalid token type, and gives no optional user |
| KnowledgeBaseApi.MentorUser | app/api/v1/knowledge_base.py:33-37 | the user reached through the item's lounge and that lounge's mentor, when every link exists |
| KnowledgeBaseApi.MentorNameChain | app/api/v1/knowledge_base.py:33-56 | a global item has neither mentor name nor mentor image; the name is present exactly when the whole chain is; an image implies a name |
| KnowledgeBaseApi.LoungeImage | app/api/v1/knowledge_base.py:40-47 | only an item with a lounge can have a lounge image |
| KnowledgeBaseApi.UploadExtensionShape | app/api/v1/knowledge_base.py:548 | the extension is the lower-cased text after the last dot |
| KnowledgeBaseApi.UploadExtensionNoDot | app/api/v1/knowledge_base.py:548 | a name without a dot is checked as a whole, lower-cased, as its own extension |
| KnowledgeBaseApi.NamelessUploadRefused | app/api/v1/knowledge_base.py:547-553 | an upload with no or an empty name is refused |
| KnowledgeBaseApi.UploadedFileTypeIsChecked | app/api/v1/knowledge_base.py:547-553 | the type the service stores is the extension the router checked, one of pdf, txt and docx |
| KnowledgeBaseApi.UploadTags | app/api/v1/knowledge_base.py:560 | the comma-split tags: at least one piece, none containing a comma |
| KnowledgeBaseApi.UploadTagsRoundTrip | app/api/v1/knowledge_base.py:560 | joining the pieces with commas gives the form field back, spaces included |
| KnowledgeBaseApi.UploadData | app/api/v1/knowledge_base.py:555-561 | the service receives the title, the lounge and the split tags of the form |
| KnowledgeBaseApi.UploadDocument | app/api/v1/knowledge_base.py:534-593 | 400 with nothing stored exactly for a type outside pdf/txt/docx; otherwise the file and the processed document are stored |
| KnowledgeBaseApi.CreatePrompt | app/api/v1/knowledge_base.py:248-309 | the prompt is stored without embedding, and a prompt-embedding job is queued exactly when it is in RAG |
| KnowledgeBaseApi.ApiChangeNeedsServiceFlag | app/api/v1/knowledge_base.py:385-387 | the router sees a change only when the service saw one, but a title set to its own value is a change only for the service |
| KnowledgeBaseApi.UpdatePrompt | app/api/v1/knowledge_base.py:347-430 | 404 for a missing prompt; otherwise the service's update, and when a RAG prompt's title or content really changed the embedding is cleared and one job queued |
| KnowledgeBaseApi.RewrittenPromptWaitsForJob | app/api/v1/knowledge_base.py:385-396 | a RAG prompt whose content is rewritten needs a re-embedding job |
| KnowledgeBaseApi.LetterIsNoInt | app/api/v1/knowledge_base.py:998-1000 | a path segment made of letters is not an integer |
| KnowledgeBaseApi.RecentJobsShadowed | app/api/v1/knowledge_base.py:998-1031 | as registered, `GET /jobs/recent` is taken by `/jobs/{job_id}` and fails integer validation (422); the recent-jobs handler is unreachable |
| KnowledgeBaseApi.RouteOrderFixed | app/api/v1/knowledge_base.py:998-1031 | with the literal route first, `/jobs/recent` lists recent jobs while numeric ids and the bare list reach the same handlers as before |
| KnowledgeBaseApi.Found | app/api/v1/knowledge_base.py:1006-1007 | a found row is returned as it is; a missing one is a 404 with the given detail |
| KnowledgeBaseApi.FoundOrMissing | app/api/v1/knowledge_base.py:1006-1007 | a lookup gives back the row itself or a 404, never another row |
| KnowledgeBaseApi.GetPromptRoute | app/api/v1/knowledge_base.py:312-345 | the prompt with the id, or 404 "Prompt not found" exactly when there is none |
| KnowledgeBaseApi.DeleteCategoryRoute | app/api/v1/knowledge_base.py:186-197 | 204 exactly when the category existed and was removed, 404 with nothing changed otherwise |
| KnowledgeBaseApi.DeletePromptRoute | app/api/v1/knowledge_base.py:432-441 | 204 exactly when the prompt existed, 404 with nothing changed otherwise |
| KnowledgeBaseApi.DeleteDocumentRoute | app/api/v1/knowledge_base.py:678-687 | 204 exactly when the document existed, 404 with nothing changed otherwise |
| KnowledgeBaseApi.DeleteFaqRoute | app/api/v1/knowledge_base.py:907-918 | 204 exactly when the FAQ existed, 404 with nothing changed otherwise |
| KnowledgeBaseApi.GetJobStatus | app/api/v1/knowledge_base.py:998-1008 | the dictionary of the job with the id, or 404 "Job not found" exactly when there is none |
| KnowledgeBaseChunker.SliceIndex | app/services/knowledge_base_service.py:412 | a slice bound is clamped into 0..n, a negative one counted from the end |
| KnowledgeBaseChunker.PySlice | app/services/knowledge_base_service.py:412 | `text[start:end]` is the text between the normalised bounds, empty when they cross |
| KnowledgeBaseChunker.PySliceLength | app/services/knowledge_base_service.py:412 | with a non-negative end a slice is at most `end - start` long |
| KnowledgeBaseChunker.IsLastUnique | app/services/knowledge_base_service.py:406 | the last occurrence in a window is unique |
| KnowledgeBaseChunker.LastIndexIn | app/services/knowledge_base_service.py:406 | the search from the right finds the last occurrence inside the window, or -1 |
| KnowledgeBaseChunker.RFind | app/services/knowledge_base_service.py:406 | `rfind` answers -1 or an occurrence lying wholly before the normalised end and, for a non-negative start, at or after start |
| KnowledgeBaseChunker.PyRFind | app/services/knowledge_base_service.py:406 | the computed search gives the same answer as the specified `rfind` |
| KnowledgeBaseChunker.FirstHit | app/services/knowledge_base_service.py:405-410 | the first sentence break, in the source's order, whose last occurrence lies after start |
| KnowledgeBaseChunker.FirstHitMisses | app/services/knowledge_base_service.py:405-410 | every break tried before the hit (or every break, without a hit) has no occurrence after start |
| KnowledgeBaseChunker.CutAtBounds | app/services/knowledge_base_service.py:401-410 | with two-character breaks the cut lies after start, no later than the planned end, and at 1 at least |
| KnowledgeBaseChunker.FindCut | app/services/knowledge_base_service.py:405-410 | the break loop moves the end just past the first break found after start, or keeps it |
| KnowledgeBaseChunker.StepEnd | app/services/knowledge_base_service.py:401-410 | a chunk starting at start ends after it and at most `chunk_size` later, at 1 at least |
| KnowledgeBaseChunker.StepSliceFits | app/services/knowledge_base_service.py:412 | every slice a step takes is at most `chunk_size` characters |
| KnowledgeBaseChunker.Keep | app/services/knowledge_base_service.py:412-414 | a slice contributes at most one chunk, non-empty and no longer than the slice |
| KnowledgeBaseChunker.FinishFits | app/services/knowledge_base_service.py:412-414 | kept chunks are non-empty and fit in `chunk_size` when the slices do |
| KnowledgeBaseChunker.EmptyTextNoChunks | app/services/knowledge_base_service.py:393-394 | empty text gives no chunks |
| KnowledgeBaseChunker.LoopUnfold | app/services/knowledge_base_service.py:400-416 | one iteration takes the step's slice and continues at `end - overlap` |
| KnowledgeBaseChunker.AsWrittenRawsFit | app/services/knowledge_base_service.py:400-416 | every slice the loop takes fits in `chunk_size`, even after start has gone negative |
| KnowledgeBaseChunker.AsWrittenChunksFit | app/services/knowledge_base_service.py:386-418 | whatever chunks the function returns are non-empty and at most `chunk_size` long |
| KnowledgeBaseChunker.ShortTextOneChunk | app/services/knowledge_base_service.py:386-418 | a text no longer than `chunk_size - overlap` is one chunk, the stripped text, or none when blank |
| KnowledgeBaseChunker.AppendKept | app/services/knowledge_base_service.py:412-414 | appending the stripped slice when non-empty adds what Keep keeps |
| KnowledgeBaseChunker.LoopAdvance | app/services/knowledge_base_service.py:400-416 | the loop invariant survives one iteration |
| KnowledgeBaseChunker.TakeSlice | app/services/knowledge_base_service.py:401-412 | computes the step's end and the slice `text[start:end]` |
| KnowledgeBaseChunker.LoopFrom | app/services/knowledge_base_service.py:400-416 | the loop finishes within the fuel exactly when the model's run does, with its kept chunks |
| KnowledgeBaseChunker.ChunkTextLoop | app/services/knowledge_base_service.py:386-418 | `_chunk_text` as written finishes exactly when the model's run does, with the same chunks |
| KnowledgeBaseChunker.StuckText | app/services/knowledge_base_service.py:386-418 | a 1500-character text with a break near its start, on which the loop sticks |
| KnowledgeBaseChunker.NegativeStartCutsAtOne | app/services/knowledge_base_service.py:405-410 | from a negative start the `rfind` miss (-1) still passes `last_punct > start`, so the cut is at 1 |
| KnowledgeBaseChunker.FirstCut | app/services/knowledge_base_service.py:401-410 | the first chunk of StuckText ends at 3 |
| KnowledgeBaseChunker.StuckAtMinus199 | app/services/knowledge_base_service.py:416 | from start -199 the loop returns to -199 for ever |
| KnowledgeBaseChunker.NonTerminatingInput | app/services/knowledge_base_service.py:386-418 | however many iterations it is given, the loop never finishes on StuckText |
| KnowledgeBaseChunker.StuckFromZero | app/services/knowledge_base_service.py:396-416 | the run from start 0 on StuckText never finishes |
| KnowledgeBaseChunker.NextStart | app/services/knowledge_base_service.py:416 | the corrected next start always moves forward |
| KnowledgeBaseChunker.SlicesFrom | app/services/knowledge_base_service.py:400-416 | every slice of the corrected loop fits in `chunk_size` |
| KnowledgeBaseChunker.ChunkText | app/services/knowledge_base_service.py:386-418 | the corrected splitter always terminates; its chunks are non-empty and fit, and empty text has none |
| KnowledgeBaseChunker.FixedAdvance | app/services/knowledge_base_service.py:400-416 | the corrected loop's invariant survives one iteration |
| KnowledgeBaseChunker.FixedFrom | app/services/knowledge_base_service.py:400-416 | the corrected loop returns the kept chunks of the specified slices |
| KnowledgeBaseChunker.ChunkTextFixed | app/services/knowledge_base_service.py:386-418 | the corrected method returns exactly ChunkText's chunks |
| KnowledgeBaseChunker.LoopAgreesWhenProgressing | app/services/knowledge_base_service.py:400-416 | where every step moves forward, the source's loop takes the corrected loop's slices |
| KnowledgeBaseChunker.AgreesWhenProgressing | app/services/knowledge_base_service.py:386-418 | wherever the source's loop always moves forward it finishes within `len(text)` iterations with ChunkText's chunks |
| KnowledgeBaseChunker.NoBreaksProgresses | app/services/knowledge_base_service.py:400-416 | a text with no sentence break always progresses |
| KnowledgeBaseService.GlobalItemsScope | app/services/knowledge_base_service.py:43-53 | a global row is hidden only when `include_global` is false and a lounge is asked for |
| KnowledgeBaseService.LoungeItemsScope | app/services/knowledge_base_service.py:43-53 | a lounge's row is visible exactly when that lounge is asked for, or when no lounge is asked for and global rows are included |
| KnowledgeBaseService.IncludeGlobalWidens | app/services/knowledge_base_service.py:43-53 | turning `include_global` on never hides a row |
| KnowledgeBaseService.EmptyFilterMatchesAll | app/services/knowledge_base_service.py:138-181 | a listing with no filter and no lounge matches every prompt, document and FAQ |
| KnowledgeBaseService.ApplyCategoryPatch | app/services/knowledge_base_service.py:61-75 | an update never changes the id or the timestamps of a category |
| KnowledgeBaseService.CategoryPatchLaws | app/services/knowledge_base_service.py:69-71 | an all-None patch changes nothing; applying a patch twice is applying it once; two patches in a row are one merged patch |
| KnowledgeBaseService.ApplyPromptPatch | app/services/knowledge_base_service.py:196-200 | a patch never changes the id, embedding, usage count, creation time or creator |
| KnowledgeBaseService.ApplyDocumentPatch | app/services/knowledge_base_service.py:514-528 | a metadata update never changes the file, original name, extracted text, embedding or processed flag |
| KnowledgeBaseService.DocumentPatchLaws | app/services/knowledge_base_service.py:522-524 | an all-None patch changes nothing and applying a patch twice is applying it once |
| KnowledgeBaseService.ApplyFaqPatch | app/services/knowledge_base_service.py:671-675 | a patch never changes the id, embedding, creation time or the view and vote counters |
| KnowledgeBaseService.PromptEmbeddingText | app/services/knowledge_base_service.py:127-129 | the text starts with title, newline, content, and is exactly that without a description |
| KnowledgeBaseService.FaqEmbeddingText | app/services/knowledge_base_service.py:607 | the text starts with "Question: " and the question and ends with "\nAnswer: " and the answer |
| KnowledgeBaseService.DocumentEmbeddingText | app/services/knowledge_base_service.py:449-453 | the text starts with the title and a newline |
| KnowledgeBaseService.Refresh | app/services/knowledge_base_service.py:122-136 | a successful embedding call stores the new vector; a failing one is caught and leaves the old vector |
| KnowledgeBaseService.UpdatedPrompt | app/services/knowledge_base_service.py:187-209 | the patch is applied; the prompt is re-embedded exactly when title, content or description changed and it is in RAG |
| KnowledgeBaseService.MetadataUpdateKeepsEmbedding | app/services/knowledge_base_service.py:194-207 | an update touching none of title, content and description keeps the embedding and the text it came from |
| KnowledgeBaseService.UpdatedFaq | app/services/knowledge_base_service.py:663-684 | the patch is applied; the FAQ is re-embedded exactly when question or answer changed and it is in RAG |
| KnowledgeBaseService.FaqMetadataUpdateKeepsEmbedding | app/services/knowledge_base_service.py:670-682 | an update leaving question and answer alone keeps the embedding and its text |
| KnowledgeBaseService.DeletedCategoryCountsZero | app/services/knowledge_base_service.py:77-105 | after the ORM deletes a category, all three of its counts are 0 |
| KnowledgeBaseService.DocumentFileTypeShape | app/services/knowledge_base_service.py:250 | a nameless upload is "unknown"; otherwise the type holds no dot and is no longer than the name |
| KnowledgeBaseService.DocumentFileTypeOfName | app/services/knowledge_base_service.py:250 | the type of "stem.ext" is the lower-cased extension |
| KnowledgeBaseService.UploadedDocumentLosesLounge | app/services/knowledge_base_service.py:253-263 | a document uploaded for a lounge is stored without it, so a lounge-only listing misses it; the corrected row keeps it |
| KnowledgeBaseService.ChunkRows | app/services/knowledge_base_service.py:302-310 | one row per chunk, in order, numbered from 0 under consecutive ids, with the whitespace word count as token count |
| KnowledgeBaseService.ProcessedRow | app/services/knowledge_base_service.py:276-323 | processing never changes the document's id |
| KnowledgeBaseService.ProcessOutcome | app/services/knowledge_base_service.py:276-323 | without text the row only records the error and no chunk is added; with text it is stored, summarised, marked processed without error, and the chunks are the splitter's, numbered from 0 and at most `chunk_size` long |
| KnowledgeBaseService.ExtractedText | app/services/knowledge_base_service.py:325-383 | without the content method the extraction yields no text; with it, the decoded content |
| KnowledgeBaseService.ProcessingFailsAsWritten | app/services/knowledge_base_service.py:331 | get_file_content is not a file-service method, so as written every processed document records the extraction error and gets no chunks; with the method defined, processing sees the file's text |
| KnowledgeBaseService.ObjectsAfterDocumentDelete | app/services/knowledge_base_service.py:550-555 | with the removal method and a working store, exactly the deleted file's object goes and the others keep their sizes; otherwise every object stays |
| KnowledgeBaseService.ObjectKeptAsWritten | app/services/knowledge_base_service.py:553 | delete_file_by_path is not a file-service method, so as written a deleted document's object stays in storage; with the method defined it is removed |
| KnowledgeBaseService.DeleteChunksOf | app/services/knowledge_base_service.py:77-85 | the chunks left are exactly those of documents not deleted |
| KnowledgeBaseService.FileRow | app/services/knowledge_base_service.py:538 | the lookup by id returns a file with that id, or none exists |
| KnowledgeBaseService.DocumentChunkTexts | app/services/knowledge_base_service.py:424-433 | one text per chunk of the document |
| KnowledgeBaseService.EmbedDocumentChunks | app/services/knowledge_base_service.py:435-437 | the document's r-th chunk takes the r-th embedding when there is one; other chunks and all other columns stay |
| KnowledgeBaseService.RankBelowCount | app/services/knowledge_base_service.py:435-437 | a chunk's rank within its document is below the document's chunk count |
| KnowledgeBaseService.BatchEmbedsEveryChunk | app/services/knowledge_base_service.py:420-441 | when the batch returns one vector per text, every chunk of the document gets an embedding |
| KnowledgeBaseService.EmbeddingKeepsTexts | app/services/knowledge_base_service.py:435-437 | re-embedding keeps the texts of every document's chunks |
| KnowledgeBaseService.RegeneratedPrompts | app/services/knowledge_base_service.py:971-977 | exactly the RAG prompts are re-embedded; the others are left alone |
| KnowledgeBaseService.RegeneratedFaqs | app/services/knowledge_base_service.py:988-994 | exactly the RAG FAQs are re-embedded; the others are left alone |
| KnowledgeBaseService.RegeneratedDocuments | app/services/knowledge_base_service.py:979-986 | exactly the processed documents are re-embedded; the others are left alone |
| KnowledgeBaseService.BuildChunkRows | app/services/knowledge_base_service.py:302-310 | the loop builds exactly the specified chunk rows |
| KnowledgeBaseService.RegeneratedChunksKeepRows | app/services/knowledge_base_service.py:979-986 | regenerating changes only the chunks' embeddings, never their number or other columns |
| KnowledgeBaseService.RegeneratedChunksStep | app/services/knowledge_base_service.py:982-986 | one more document re-embeds its chunks when it is processed and changes nothing otherwise |
| KnowledgeBaseService.EmbedChunks | app/services/knowledge_base_service.py:420-441 | the batch call and the zip loop give the specified chunk table |
| KnowledgeBaseService.RegeneratePromptRows | app/services/knowledge_base_service.py:971-977 | the loop gives the specified prompt table and counts the RAG prompts |
| KnowledgeBaseService.RegenerateFaqRows | app/services/knowledge_base_service.py:988-994 | the loop gives the specified FAQ table and counts the RAG FAQs |
| KnowledgeBaseService.RegenerateDocument | app/services/knowledge_base_service.py:982-986 | a processed document's chunks and then the document are re-embedded; anything else is left as it was |
| KnowledgeBaseService.RegenerateDocumentRows | app/services/knowledge_base_service.py:979-986 | the loop gives the specified document and chunk tables and counts the processed documents |
| KnowledgeBaseService.CategoryName | app/services/knowledge_base_service.py:779 | the name of the row's category when it exists, None otherwise |
| KnowledgeBaseService.Candidates | app/services/knowledge_base_service.py:762-764 | the candidates are the rows' non-empty vectors with their ids; there are none exactly when no row has a non-empty vector |
| KnowledgeBaseService.PromptKeys | app/services/knowledge_base_service.py:762 | one (id, embedding) pair per prompt, in order |
| KnowledgeBaseService.FaqKeys | app/services/knowledge_base_service.py:858 | one (id, embedding) pair per FAQ, in order |
| KnowledgeBaseService.ChunkKeys | app/services/knowledge_base_service.py:808 | one (id, embedding) pair per joined chunk, in order |
| KnowledgeBaseService.Hits | app/services/knowledge_base_service.py:768-780 | there are never more hits than ranked ids |
| KnowledgeBaseService.HitsFromRanking | app/services/knowledge_base_service.py:768-780 | every hit is the hit of a row whose id the ranking returned, with the ranking's score |
| KnowledgeBaseService.HitsComplete | app/services/knowledge_base_service.py:768-780 | when every ranked id has a row, nothing is skipped and the hits keep the ranking's order and scores |
| KnowledgeBaseService.CollectHits | app/services/knowledge_base_service.py:768-780 | the loop returns exactly the specified hits |
| KnowledgeBaseService.JoinedChunks | app/services/knowledge_base_service.py:790-806 | the join returns only chunks with an embedding, each with its own document, which is searchable |
| KnowledgeBaseService.DocumentHits | app/services/knowledge_base_service.py:814-831 | there are never more document hits than ranked chunks |
| KnowledgeBaseService.DocumentHitsDistinct | app/services/knowledge_base_service.py:814-831 | a document appears at most once, however many of its chunks match |
| KnowledgeBaseService.DocumentHitsFromJoin | app/services/knowledge_base_service.py:818-829 | every hit names a joined document and previews the first 200 characters of its chunk |
| KnowledgeBaseService.CollectDocumentHits | app/services/knowledge_base_service.py:814-831 | the loop with `seen_docs` returns exactly the specified hits |
| KnowledgeBaseService.PromptSearchSound | app/services/knowledge_base_service.py:736-782 | every prompt hit names an active, in-scope prompt with a vector, with its title and category name |
| KnowledgeBaseService.FaqSearchSound | app/services/knowledge_base_service.py:835-880 | every FAQ hit names an active, in-scope FAQ with a vector, titled by the question cut to 100 characters |
| KnowledgeBaseService.DocumentSearchSound | app/services/knowledge_base_service.py:784-833 | every document hit names an active, in-scope document, and no document is listed twice |
| KnowledgeBaseService.SearchPrompts | app/services/knowledge_base_service.py:736-782 | `_search_prompts` returns exactly the specified prompt hits |
| KnowledgeBaseService.SearchFaqs | app/services/knowledge_base_service.py:835-880 | `_search_faqs` returns exactly the specified FAQ hits |
| KnowledgeBaseService.SearchDocuments | app/services/knowledge_base_service.py:784-833 | `_search_documents` returns exactly the specified document hits |
| KnowledgeBaseService.InsertByScore | app/services/knowledge_base_service.py:733 | inserting into a list sorted by descending score keeps it sorted and adds exactly the new result |
| KnowledgeBaseService.SortByScore | app/services/knowledge_base_service.py:733 | the results sorted by descending score, a permutation of the input |
| KnowledgeBaseService.ScoreSortedTail | app/services/knowledge_base_service.py:733 | the tail of a score-sorted list is score-sorted |
| KnowledgeBaseService.InsertWithScore | app/services/knowledge_base_service.py:733 | insertion puts the new result ahead of the results with its score, keeping their order |
| KnowledgeBaseService.InsertWithScoreStep | app/services/knowledge_base_service.py:733 | a result scoring above the new one stays ahead of it |
| KnowledgeBaseService.SortByScoreStable | app/services/knowledge_base_service.py:733 | results with the same score keep their input order, as Python's stable sort keeps it |
| KnowledgeBaseService.Search | app/services/knowledge_base_service.py:712-734 | the search body returns exactly the specified results |
| KnowledgeBaseService.SearchResultsTopK | app/services/knowledge_base_service.py:712-734 | at most `limit` results, best first, all drawn from the sub-searches, and no result left out scores above the last one kept |
| KnowledgeBaseService.RagPart | app/services/knowledge_base_service.py:905-907 | each context part starts with the bracketed entity type |
| KnowledgeBaseService.RagParts | app/services/knowledge_base_service.py:905-907 | one part per kept result, in order |
| KnowledgeBaseService.RagSources | app/services/knowledge_base_service.py:908-912 | one source (type, id, title) per kept result, in order |
| KnowledgeBaseService.RagStep | app/services/knowledge_base_service.py:903-912 | one more result adds its part and its source exactly when it reaches the threshold |
| KnowledgeBaseService.BuildRagContext | app/services/knowledge_base_service.py:899-915 | the context is the kept parts joined by the separator, and the sources are the kept results' sources |
| KnowledgeBaseService.RagSourcesAreRelevant | app/services/knowledge_base_service.py:903-912 | a source is listed exactly when some result reached the threshold with it |
| KnowledgeBaseService.RagContextEmptyIff | app/services/knowledge_base_service.py:899-915 | the context is empty exactly when no result reached the threshold |
| KnowledgeBaseService.KnowledgeBase.constructor | app/services/knowledge_base_service.py:23-24 | an empty knowledge base with every table empty |
| KnowledgeBaseService.KnowledgeBase.CreateCategory | app/services/knowledge_base_service.py:26-32 | the new category is appended under a fresh key; no other table changes |
| KnowledgeBaseService.KnowledgeBase.Categories | app/services/knowledge_base_service.py:34-55 | exactly the categories that are active (or all when inactive ones are asked for) and in scope, in sort order |
| KnowledgeBaseService.KnowledgeBase.GetCategory | app/services/knowledge_base_service.py:57-59 | a category with the id, or None exactly when there is none |
| KnowledgeBaseService.KnowledgeBase.UpdateCategory | app/services/knowledge_base_service.py:61-75 | None exactly for a missing id; otherwise that row is replaced by the patched row and nothing else changes |
| KnowledgeBaseService.KnowledgeBase.DeleteCategory | app/services/knowledge_base_service.py:77-85 | False exactly for a missing id; otherwise the category goes and the ORM cascade takes its prompts, documents, their chunks and its FAQs |
| KnowledgeBaseService.KnowledgeBase.GetCategoryCounts | app/services/knowledge_base_service.py:87-103 | each count is bounded by the size of its table, and is zero exactly when no row of that table belongs to the category |
| KnowledgeBaseService.KnowledgeBase.PromptIndex | app/services/knowledge_base_service.py:183-185 | the first position holding the id, or None exactly when no prompt has it |
| KnowledgeBaseService.KnowledgeBase.ClearPromptEmbedding | app/api/v1/knowledge_base.py:383 | the prompt's embedding is cleared and nothing else changes |
| KnowledgeBaseService.KnowledgeBase.GetPrompt | app/services/knowledge_base_service.py:183-185 | a prompt with the id, or None exactly when there is none |
| KnowledgeBaseService.KnowledgeBase.CreatePrompt | app/services/knowledge_base_service.py:107-120 | the new prompt is appended under a fresh key and embedded exactly when it is in RAG and embedding is not skipped |
| KnowledgeBaseService.KnowledgeBase.PromptsPage | app/services/knowledge_base_service.py:138-181 | the total counts the matching prompts; the page holds at most `limit` matching prompts, newest first |
| KnowledgeBaseService.KnowledgeBase.UpdatePrompt | app/services/knowledge_base_service.py:187-209 | None exactly for a missing id; otherwise the first row with the id becomes UpdatedPrompt and nothing else changes |
| KnowledgeBaseService.KnowledgeBase.DeletePrompt | app/services/knowledge_base_service.py:211-219 | False exactly for a missing id; otherwise exactly that row is removed |
| KnowledgeBaseService.KnowledgeBase.RegeneratePromptEmbedding | app/services/knowledge_base_service.py:221-231 | None exactly for a missing id; otherwise the prompt is re-embedded (kept on failure) and nothing else changes |
| KnowledgeBaseService.KnowledgeBase.GetDocument | app/services/knowledge_base_service.py:510-512 | a document with the id, or None exactly when there is none |
| KnowledgeBaseService.KnowledgeBase.ProcessDocument | app/services/knowledge_base_service.py:276-323 | the document row becomes ProcessedRow and the new chunk rows are appended under fresh keys |
| KnowledgeBaseService.KnowledgeBase.AddChunkRows | app/services/knowledge_base_service.py:302-310 | the chunk rows are appended under consecutive fresh keys |
| KnowledgeBaseService.KnowledgeBase.CreateDocument | app/services/knowledge_base_service.py:235-274 | the uploaded file row is stored, the new document is inserted and processed, and its chunks appended |
| KnowledgeBaseService.KnowledgeBase.InsertDocument | app/services/knowledge_base_service.py:266-268 | the row is appended under the next key and no chunk points at it yet |
| KnowledgeBaseService.KnowledgeBase.DocumentsPage | app/services/knowledge_base_service.py:462-508 | the total counts the matching documents; the page holds at most `limit` matching documents, newest first |
| KnowledgeBaseService.KnowledgeBase.UpdateDocument | app/services/knowledge_base_service.py:514-528 | None exactly for a missing id; otherwise only that row's metadata changes |
| KnowledgeBaseService.KnowledgeBase.DeleteDocument | app/services/knowledge_base_service.py:530-557 | False exactly for a missing id; otherwise the document, its chunks and its file row go, and the file's storage path is returned; as written nothing removes that object (see ObjectKeptAsWritten) |
| KnowledgeBaseService.KnowledgeBase.ReprocessDocument | app/services/knowledge_base_service.py:559-576 | None exactly for a missing id; otherwise the old chunks are deleted and the document processed again |
| KnowledgeBaseService.KnowledgeBase.DocumentFileId | app/services/knowledge_base_service.py:578-586 | None exactly for a missing document; otherwise its file id |
| KnowledgeBaseService.KnowledgeBase.GetFaq | app/services/knowledge_base_service.py:659-661 | an FAQ with the id, or None exactly when there is none |
| KnowledgeBaseService.KnowledgeBase.CreateFaq | app/services/knowledge_base_service.py:590-602 | the new FAQ is appended under a fresh key and embedded exactly when it is in RAG |
| KnowledgeBaseService.KnowledgeBase.FaqsPage | app/services/knowledge_base_service.py:615-657 | the total counts the matching FAQs; the page holds at most `limit` matching FAQs by sort order, then newest first |
| KnowledgeBaseService.KnowledgeBase.UpdateFaq | app/services/knowledge_base_service.py:663-684 | None exactly for a missing id; otherwise that row becomes UpdatedFaq and nothing else changes |
| KnowledgeBaseService.KnowledgeBase.DeleteFaq | app/services/knowledge_base_service.py:686-694 | False exactly for a missing id; otherwise exactly that row is removed |
| KnowledgeBaseService.KnowledgeBase.GetStats | app/services/knowledge_base_service.py:922-961 | each scoped count is bounded by its table and each sub-count by its total; the chunk count is the whole table |
| KnowledgeBaseService.KnowledgeBase.UnscopedStatsCountAll | app/services/knowledge_base_service.py:922-961 | without a lounge and with global rows the totals are the table sizes |
| KnowledgeBaseService.KnowledgeBase.RegeneratePrompts | app/services/knowledge_base_service.py:971-977 | every RAG prompt is re-embedded and counted; nothing else changes |
| KnowledgeBaseService.KnowledgeBase.RegenerateFaqs | app/services/knowledge_base_service.py:988-994 | every RAG FAQ is re-embedded and counted; nothing else changes |
| KnowledgeBaseService.KnowledgeBase.RegenerateDocuments | app/services/knowledge_base_service.py:979-986 | every processed document's chunks and then the document are re-embedded and counted |
| KnowledgeBaseService.KnowledgeBase.RegenerateAllEmbeddings | app/services/knowledge_base_service.py:965-996 | only the selected entity kinds are re-embedded, each count is that kind's number of rows, the unselected ones are 0 |
| KnowledgeBaseService.KnowledgeBase.SemanticSearch | app/services/knowledge_base_service.py:698-734 | a failing query embedding raises; otherwise the specified top results |
| KnowledgeBaseService.KnowledgeBase.GetRagContext | app/services/knowledge_base_service.py:882-918 | the search with `limit = max_items` and no category filter, then the thresholded context and sources |
| Logging.LevelNo | app/core/logging.py:226-234 | the standard levels are numbered 10 to 50 in steps of ten |
| Logging.AddIfGiven | app/core/logging.py:190-195 | a context field is added exactly when its value is a non-empty string |
| Logging.GetRequestLogger | app/core/logging.py:171-198 | the adapter's context holds exactly the given non-empty request id, user id and endpoint |
| Logging.Process | app/core/logging.py:163-168 | an adapted call keeps its message and merges the adapter's context over the call's own extra fields |
| Logging.MillisText | app/core/logging.py:229 | a duration prints with exactly two decimals |
| Logging.ApiRequestLevel | app/core/logging.py:226-234 | server errors log at ERROR, client errors at WARNING and everything else at INFO |
| Logging.LogApiRequest | app/core/logging.py:201-237 | the request record has the status's level, its message adds the error text (by default Internal Server Error) only for server errors, and it carries the request fields |
| Logging.ApiRequestExtraKeys | app/core/logging.py:213-224 | the request record always carries method, endpoint, status and rounded duration, plus request id, user id and address exactly when given |
| Logging.ApiRequestLevelMonotone | app/core/logging.py:226-234 | a higher status never logs at a lower level |
| Logging.ApiRequestMessages | app/core/logging.py:226-234 | a server error's message starts with the request line and ends with the error text; other messages are the request line alone |
| Logging.LogAuthEvent | app/core/logging.py:240-260 | an authentication event logs at INFO on success and WARNING on failure, with its head, outcome and fields |
| Logging.AuthEventMessages | app/core/logging.py:256-260 | success and failure messages share their head, end with SUCCESS or the reason (by default Unknown reason), and always differ |
| Logging.LogError | app/core/logging.py:263-280 | an error logs at ERROR with its traceback as type name and text, adding the request id and the error code when present, and fills a non-empty context in place |
| Logging.LogErrorFreshContext | app/core/logging.py:270-274 | without a context the record carries exactly the request id and error code that are present |
| Logging.JsonLog | app/core/logging.py:66-90 | the JSON line carries level, logger and message, exactly those listed extra fields the record has, and an exception exactly when the record has a traceback |
| Logging.AdapterContextInJson | app/core/logging.py:66-90 | a request id given to the adapter appears in the JSON line |
| Logging.AuthEventJsonFields | app/core/logging.py:82-85 | the JSON line of an authentication event drops its email, event and success fields and keeps the address exactly when given |
| Logging.ErrorCodeInJson | app/core/logging.py:82-89 | an application error's code appears in its JSON line at ERROR level with the traceback |
| LoungeResourceService.ResourceFolder | app/services/lounge_resource_service.py:63 | resource files go under a lounge_resources/ folder |
| LoungeResourceService.FindResource | app/services/lounge_resource_service.py:98-100 | the lookup finds an index holding the requested id, or none exists |
| LoungeResourceService.LoungeResources | app/services/lounge_resource_service.py:102-134 | the total counts the lounge's resources and the page holds at most a page of them, newest first |
| LoungeResourceService.AllResources | app/services/lounge_resource_service.py:250-283 | a lounge filter gives that lounge's listing; without one the total counts every resource |
| LoungeResourceService.FirstPageListsLounge | app/services/lounge_resource_service.py:102-134 | a first page at least as large as the lounge's resources lists all of them |
| LoungeResourceService.Patch | app/services/lounge_resource_service.py:165-171 | a given title or description replaces the stored one, absent ones are kept, the update time is set and nothing else changes |
| LoungeResourceService.PatchTwice | app/services/lounge_resource_service.py:165-171 | two patches equal one patch with the later values winning |
| LoungeResourceService.ResourceStore.constructor | app/services/lounge_resource_service.py:23-25 | the store starts without resources, over the given lounges |
| LoungeResourceService.ResourceStore.GetResource | app/services/lounge_resource_service.py:83-100 | the lookup returns the resource with that id, or none exists |
| LoungeResourceService.ResourceStore.CreateResource | app/services/lounge_resource_service.py:27-81 | an unknown lounge fails with Lounge not found; an accepted upload adds exactly one resource whose file belongs to the uploader; any failure changes nothing |
| LoungeResourceService.ResourceStore.UpdateResource | app/services/lounge_resource_service.py:136-178 | an unknown resource fails and changes nothing, otherwise exactly that resource is patched |
| LoungeResourceService.ResourceStore.GetResourceFileUrl | app/services/lounge_resource_service.py:226-248 | an unknown resource gives no URL, otherwise the URL of its file |
| LoungeResourceService.ResourceStore.DeleteResourceAsWritten | app/services/lounge_resource_service.py:180-224 | as written, the resource row goes but its file row and object stay, because the clean-up call fails and is logged |
| LoungeResourceService.ResourceStore.DeleteResource | app/services/lounge_resource_service.py:180-224 | corrected, the resource row goes and so do its file row and object unless the storage call fails |
| LoungeResourceService.FileOfLast | app/services/lounge_resource_service.py:67-73 | a resource pointing at the file just uploaded finds that file |
| LoungeResourceService.RemoveResourceKeepsIds | app/services/lounge_resource_service.py:210 | removing a resource keeps the ids valid and removes that id |
| LoungesApi.ParseIds | app/api/v1/lounges.py:148-154 | the comma-separated category ids parse only when every non-blank token is an integer, giving at most one id per token |
| LoungesApi.CategoryFilterOf | app/api/v1/lounges.py:147-156 | category_ids takes precedence over category_id; an unparsable or empty list applies no category filter |
| LoungesApi.IdTexts | app/api/v1/lounges.py:150 | each id is written as its decimal text |
| LoungesApi.IntToStringNoComma | app/api/v1/lounges.py:150 | the text of an id contains no comma, so ids can be joined with commas |
| LoungesApi.ParseIdTexts | app/api/v1/lounges.py:150 | the texts of a list of ids parse back to the same ids |
| LoungesApi.ParseIdsCons | app/api/v1/lounges.py:150 | parsing a token list is its first token's id followed by the rest's ids |
| LoungesApi.CategoryIdsRoundTrip | app/api/v1/lounges.py:147-153 | a comma-joined list of category ids filters on exactly those categories |
| LoungesApi.ListedRows | app/api/v1/lounges.py:145-182 | the listing holds exactly the lounges that pass the public, category, access, mentor and search filters |
| LoungesApi.ListOffset | app/api/v1/lounges.py:185-186 | page one uses skip, and a later page starts after the previous pages |
| LoungesApi.Card | app/api/v1/lounges.py:192-199 | a lounge card counts the lounge's active members and is full exactly when a maximum exists and is reached |
| LoungesApi.LoungeIdsOf | app/api/v1/lounges.py:77 | the listed lounge ids are the memberships' lounges, in order |
| LoungesApi.MembershipOfListedId | app/api/v1/lounges.py:71-87 | every lounge listed under my lounges has an active membership of the user |
| LoungesApi.PrivateAccessSound | app/api/v1/lounges.py:338-360 | a public lounge is open; a private one needs a caller (401) who is its mentor or an active member (403 otherwise) |
| LoungesApi.MemberAccess | app/api/v1/lounges.py:775-788 | the members-only routes admit exactly the lounge's mentor and its active members; a lounge without a mentor fails with 500 |
| LoungesApi.StrippedNonBlank | app/api/v1/lounges.py:457 | the profile list keeps only non-blank stripped lines, never more than the text has |
| LoungesApi.StrippedNonBlankLines | app/api/v1/lounges.py:457 | every profile list entry is a non-blank, stripped line |
| LoungesApi.ProfileLinesClean | app/api/v1/lounges.py:454-463 | hobbies and quick prompts parse to clean lines |
| LoungesApi.StripClean | app/api/v1/lounges.py:457 | a stripped non-blank line is clean |
| LoungesApi.StrippedNonBlankClean | app/api/v1/lounges.py:457 | clean lines pass through the profile list unchanged |
| LoungesApi.ProfileLinesRoundTrip | app/api/v1/lounges.py:454-463 | clean lines joined with newlines parse back to the same list |
| LoungesApi.ProfileOf | app/api/v1/lounges.py:451-493 | the profile carries the owner's name and avatar and the title, philosophy and podcast name columns; the book, podcast recommendation, podcast links and social links each appear exactly when one of their deciding columns is set, carrying those columns; hobbies and quick prompts are clean lines |
| LoungesApi.ProfileAttributesUnmapped | app/db/models/mentor.py:15-40 | the mentor columns do not include the attributes the profile route reads |
| LoungesApi.LoungeColumnsUnmappedAsWritten | app/db/models/lounge.py:32-47 | the lounge class does not map about or brand_color, which creation passes; with the migrated columns it would |
| LoungesApi.CreatedLounge | app/api/v1/lounges.py:277-289 | a new lounge carries the request's fields, the mentor's id and no profile image |
| LoungesApi.CreateKeepsValid | app/api/v1/lounges.py:255-293 | adding a lounge with a free slug keeps slugs unique and ids below the counter |
| LoungesApi.ApplyUpdate | app/api/v1/lounges.py:527-562 | an update never changes a lounge's id, mentor, slug, creation time, image or Stripe product |
| LoungesApi.ApplyUpdateFields | app/api/v1/lounges.py:527-562 | each field given in an update replaces the old value, and each absent one keeps it |
| LoungesApi.ApplyUpdateIdempotent | app/api/v1/lounges.py:527-562 | applying an update twice equals applying it once, and an empty update changes nothing |
| LoungesApi.UpdateKeepsValid | app/api/v1/lounges.py:527-565 | updating a lounge keeps the tables' invariants |
| LoungesApi.DeleteKeepsValid | app/db/models/lounge.py:54-57 | deleting a lounge and its memberships keeps the tables' invariants |
| LoungesApi.JoinRefusal | app/api/v1/lounges.py:661-696 | join is refused for an active member (400), then a full lounge (400), then an invite-only lounge (403), and allowed otherwise |
| LoungesApi.JoinCapacityIsIsFull | app/api/v1/lounges.py:679 | join's capacity check agrees with is_full except for a maximum of zero, which shows full yet admits |
| LoungesApi.JoinKeepsValid | app/api/v1/lounges.py:698-718 | adding a non-member's membership keeps the tables' invariants |
| LoungesApi.JoinThenLeave | app/api/v1/lounges.py:639-748 | joining raises the member count by one and leaving again restores it |
| LoungesApi.MemberViews | app/api/v1/lounges.py:799-814 | each member view shows its membership, and the email only to the mentor; a member without a user fails |
| LoungesApi.MemberRows | app/api/v1/lounges.py:790-797 | the members listed belong to the lounge, and include those who left only when asked |
| LoungesApi.LoungeStore.ListLounges | app/api/v1/lounges.py:125-227 | the listing reports the filtered total and shows the chosen page of public lounges as cards |
| LoungesApi.LoungeStore.MyLounges | app/api/v1/lounges.py:58-122 | my lounges are the lounges of a page of the user's active memberships, each with its member count, total being their number |
| LoungesApi.LoungeStore.GetLounge | app/api/v1/lounges.py:319-409 | an unknown lounge is 404, a private one follows the access rule; otherwise the card, the caller's membership and the configured prices |
| LoungesApi.LoungeStore.MentorProfileRoute | app/api/v1/lounges.py:412-493 | the profile needs a known lounge and a mentor or member caller; once past those guards it succeeds exactly when the mentor's user exists, and it is then that user's and mentor's profile as ProfileOf builds it |
| LoungesApi.LoungeStore.MentorProfileAsWritten | app/api/v1/lounges.py:451-493 | as written the profile route never succeeds: past the guards its first read, mentor.hobbies, is unmapped, and where the corrected route succeeds it answers 500 |
| LoungesApi.LoungeStore.CreateLounge | app/api/v1/lounges.py:230-316 | creation needs a mentor (403), a free slug (400) and an existing category when one is given (404), and then appends the new lounge |
| LoungesApi.LoungeStore.UpdateLounge | app/api/v1/lounges.py:494-598 | only the owning mentor updates an existing lounge, with an existing category, and the update replaces exactly that lounge |
| LoungesApi.LoungeStore.DeleteLounge | app/api/v1/lounges.py:601-636 | only the owning mentor deletes an existing lounge, which removes it and its memberships |
| LoungesApi.LoungeStore.JoinLounge | app/api/v1/lounges.py:639-718 | an unknown lounge is 404, a refusal reports its status; a join appends one membership and raises the count by one |
| LoungesApi.LoungeStore.LeaveLounge | app/api/v1/lounges.py:721-748 | leaving is refused with 404 exactly for a non-member; otherwise it ends the membership and lowers the count by one |
| LoungesApi.LoungeStore.ListMembers | app/api/v1/lounges.py:751-814 | the members route checks the lounge and access and returns a page of at most limit of the lounge's members |
| LoungesApi.PagedMembersSound | app/api/v1/lounges.py:790-797 | a page of members holds at most limit memberships of the lounge |
| LoungesApi.BuildMemberViews | app/api/v1/lounges.py:799-814 | the loop builds exactly the member views |
| LoungesApi.MemberViewsNone | app/api/v1/lounges.py:801-811 | one member without a user makes the member list fail |
| LoungesApi.MemberViewsStep | app/api/v1/lounges.py:799-814 | each step of the loop appends the next member's view |
| LoungesApi.MemberViewsSnoc | app/api/v1/lounges.py:799-814 | the views of a longer page are the old views plus the new member's view |
| LoungesApi.ResourceItemOf | app/api/v1/lounges.py:1012-1027 | a resource item is shown with a presigned URL and its file's type and size, and a file name without slashes |
| LoungesApi.ListLoungeResources | app/api/v1/lounges.py:966-1037 | the resources route checks the lounge and access, then shows the service's page with totals, each item from its file |
| MentorsApi.MemberCountSnoc | app/api/v1/mentors.py:119-124 | a membership adds one to a mentor's member count exactly when it is current and in one of the mentor's lounges, so the count never exceeds the memberships |
| MentorsApi.ListedMentorsExact | app/api/v1/mentors.py:49-70 | a mentor is listed exactly when it matches the status (approved by default), search and experience filters |
| MentorsApi.Card | app/api/v1/mentors.py:77-90 | a listing card carries the mentor's id, status and experience, its user's name, and the number of its lounges |
| MentorsApi.ListMentors | app/api/v1/mentors.py:33-92 | the route returns one card per mentor of the filtered page, in order, at most limit, each with the wanted status and enough experience |
| MentorsApi.Cards | app/api/v1/mentors.py:74-90 | one card per listed mentor, in order, each built from that mentor, its user and its count of lounges |
| MentorsApi.GetMentor | app/api/v1/mentors.py:95-142 | an unknown mentor gives 404; otherwise the view shows the mentor, its e-mail exactly when approved, and its lounge and current member counts |
| MentorsApi.ApplicationProfile | app/api/v1/mentors.py:169-176 | an application creates a pending profile owned by the applicant with the submitted headline, bio and video |
| MentorsApi.Apply | app/api/v1/mentors.py:144-198 | a user who already has a profile gets 400, otherwise exactly the new pending profile is appended |
| MentorsApi.ApplyKeepsOneProfilePerUser | app/api/v1/mentors.py:158-166 | applying keeps one profile per user, and a second application by the same user is refused |
| MentorsApi.PatchProfile | app/api/v1/mentors.py:222-235 | each given field replaces the stored one, absent fields are kept, owner, status and creation time never change, and the update time is set |
| MentorsApi.PatchIdempotent | app/api/v1/mentors.py:222-235 | applying the same patch twice is applying it once |
| MentorsApi.UpdateProfile | app/api/v1/mentors.py:200-268 | a user without a profile gets 404, otherwise exactly their profile is patched |
| MentorsApi.UpdateKeepsStatusAndOwner | app/api/v1/mentors.py:200-268 | updating a profile keeps the number of profiles, every status and owner, and one profile per user |
| MentorsApi.MentorLounges | app/api/v1/mentors.py:270-297 | an unknown mentor gives 404; otherwise at most limit lounges, each a public lounge of that mentor |
| MentorsApi.MentorLoungesComplete | app/api/v1/mentors.py:270-297 | with a large enough page a lounge is listed exactly when it is a public lounge of the mentor |
| MentorsApi.Promote | app/api/v1/mentors.py:331-333 | exactly the owner's role becomes mentor, every other user is unchanged |
| MentorsApi.Approve | app/api/v1/mentors.py:299-364 | an unknown mentor gives 404, a mentor not pending gives 400 naming its status, otherwise the status becomes approved or disabled and an approval promotes the owner |
| MentorsApi.ReviewIsFinal | app/api/v1/mentors.py:321-325 | a reviewed application cannot be reviewed again |
| MentorsApi.ApprovalDisclosesEmail | app/api/v1/mentors.py:326-364 | after review the mentor's e-mail is shown exactly when approved, and an approved owner is a mentor while a rejection changes no user |
| MentorsApi.CreateCategory | app/api/v1/mentors.py:380-412 | a taken slug gives 400, otherwise exactly the new category is appended |
| MentorsApi.CreateCategoryKeepsSlugsUnique | app/api/v1/mentors.py:395-401 | creating a category keeps slugs unique |
| MentorsApi.MentorStore.constructor | app/api/v1/mentors.py:33-412 | the store starts empty |
| MentorsApi.MentorStore.ApplyAsMentor | app/api/v1/mentors.py:144-198 | the mentor table grows by the pending profile on success and is unchanged on refusal; nothing else changes |
| MentorsApi.MentorStore.UpdateMentorProfile | app/api/v1/mentors.py:200-268 | the applicant's profile is patched and returned with its counts on success; 404 otherwise; nothing else changes |
| MentorsApi.MentorStore.ApproveMentor | app/api/v1/mentors.py:299-364 | mentors and users become the review's result on success and are unchanged on error; the reply shows the new status |
| MentorsApi.MentorStore.ListCategories | app/api/v1/mentors.py:366-378 | the route lists every category |
| MentorsApi.MentorStore.CreateCategoryRow | app/api/v1/mentors.py:380-412 | the category table grows by the new category on success and is unchanged on a taken slug |
| MigrateLounges.StepOfCases | scripts/migrate_existing_lounges_to_stripe.py:54-95 | a lounge with a product is already migrated; otherwise a dry run would create, and a live run creates with the returned ids or fails with the product error |
| MigrateLounges.MigrateExistingPaidLounges | scripts/migrate_existing_lounges_to_stripe.py:27-96 | the loop produces the tally of every paid lounge and each lounge's migrated row |
| MigrateLounges.TallyMapped | scripts/migrate_existing_lounges_to_stripe.py:54-96 | with the product column mapped the loop yields the tally; without it the script raises, returning no results, exactly when the table holds a paid lounge |
| MigrateLounges.MigrationAbortsAsWritten | scripts/migrate_existing_lounges_to_stripe.py:55 | as written the script aborts whenever a paid lounge exists; with the added columns mapped it returns the tally MigrateExistingPaidLounges computes |
| MigrateLounges.MigrateLounge | scripts/migrate_existing_lounges_to_stripe.py:54-95 | one lounge's step adds its outcome to the tally and gives its migrated row |
| MigrateLounges.RecordSkip | scripts/migrate_existing_lounges_to_stripe.py:55-58 | a lounge that has a product counts as already migrated and is left unchanged |
| MigrateLounges.RecordDryRun | scripts/migrate_existing_lounges_to_stripe.py:60-63 | in a dry run a pending lounge counts as migrated and is left unchanged |
| MigrateLounges.RecordCreated | scripts/migrate_existing_lounges_to_stripe.py:65-85 | a pending lounge whose product is created counts as migrated and receives the product and both price ids |
| MigrateLounges.RecordFailed | scripts/migrate_existing_lounges_to_stripe.py:87-94 | a pending lounge whose creation fails counts as failed, is recorded with its id, title and error, and is left unchanged |
| MigrateLounges.TallyBalanced | scripts/migrate_existing_lounges_to_stripe.py:51-96 | already migrated, migrated and failed add up to the paid lounges, with one error entry per failure |
| MigrateLounges.ResultsAddUp | scripts/migrate_existing_lounges_to_stripe.py:51-96 | the summary's counts add up to the total of paid lounges and its errors match its failures |
| MigrateLounges.ErrorsAreFailures | scripts/migrate_existing_lounges_to_stripe.py:87-94 | every error entry belongs to a pending lounge whose creation failed, with that failure's message |
| MigrateLounges.DryRunReportsPending | scripts/migrate_existing_lounges_to_stripe.py:60-63 | a dry run fails nowhere, reports every pending lounge as migrated and changes no row |
| MigrateLounges.MigratedLoungesUntouched | scripts/migrate_existing_lounges_to_stripe.py:55-58 | a lounge that already has a product is never changed |
| MigrateLounges.CreatedIdsCopied | scripts/migrate_existing_lounges_to_stripe.py:68-77 | a successful creation stores the returned product and price ids on the lounge |
| MigrateLounges.NothingPendingTally | scripts/migrate_existing_lounges_to_stripe.py:54-58 | with no pending lounge every paid lounge is already migrated and nothing is created or failed |
| MigrateLounges.RerunFindsNothing | scripts/migrate_existing_lounges_to_stripe.py:27-96 | after a live run where every creation succeeded, running again finds every paid lounge already migrated |
| Migrations.RunAppend | alembic/versions/003_add_lounge_profile_image.py:21-30 | running two operation lists one after the other is running their concatenation, stopping at the first failure |
| Migrations.ApplyKeepsWF | alembic/versions/002_add_lounge_id_to_kb_tables.py:21-82 | every successful schema operation keeps each table's rows carrying exactly its columns |
| Migrations.AddColumnUndone | alembic/versions/003_add_lounge_profile_image.py:21-36 | dropping a column just added restores the schema and its rows |
| Migrations.RenameColumnUndone | alembic/versions/001_rename_metadata_column.py:18-27 | renaming a column and renaming it back restores the schema and its rows |
| Migrations.CreateIndexUndone | alembic/versions/006_add_reply_to_id_to_chat_messages.py:37-46 | dropping an index just created restores the schema |
| Migrations.CreateForeignKeyUndone | alembic/versions/006_add_reply_to_id_to_chat_messages.py:28-47 | dropping a foreign key just created restores the schema |
| Migrations.CreateTableUndone | alembic/versions/005_add_contact_messages_table.py:20-48 | dropping a table just created restores the schema |
| Migrations.InverseUndoes | alembic/versions/003_add_lounge_profile_image.py:21-36 | every invertible operation is taken back by its inverse |
| Migrations.UndoRestores | alembic/versions/009_add_lounge_resources.py:20-49 | running the inverses of an upgrade's operations, last first, restores the schema the upgrade started from |
| Migrations.MirrorsUndo | alembic/versions/007_add_lounge_subscriptions.py:20-90 | a downgrade that mirrors an upgrade position by position is that upgrade's undo |
| Migrations.MirroredRoundTrip | alembic/versions/008_add_lounge_id_to_notes.py:21-37 | after a successful upgrade, a mirroring downgrade restores the original schema |
| Migrations.RunKeepsRows | alembic/versions/010_add_public_chatbot_tables.py:46-47 | operations that keep a table's rows leave its rows and columns unchanged |
| Migrations.RunSameBut | alembic/versions/010_add_public_chatbot_tables.py:63-68 | dropping operations run on two schemas that differ in one table's rows succeed together and still differ only there |
| Migrations.InsertAppends | alembic/versions/010_add_public_chatbot_tables.py:49-60 | an insert appends one full row, numbered after the existing rows, to the table |
| Migrations.RunLowers | alembic/versions/004_normalize_enum_values.py:16-60 | after a list of lower-casing updates every named column holds only lower-case text |
| Migrations.RunLowerIdle | alembic/versions/004_normalize_enum_values.py:16-60 | lower-casing columns that are already lower-case changes nothing |
| Migrations.RunLowerKeepsColumns | alembic/versions/004_normalize_enum_values.py:16-60 | lower-casing updates add or remove no table and no column |
| Migrations.LowerRowsKeepsLowered | alembic/versions/004_normalize_enum_values.py:16-60 | lower-casing one column keeps another column lower-case |
| Migrations.CollatedLowerChangesNothing | alembic/versions/004_normalize_enum_values.py:20 | when the inequality is compared under a case-insensitive collation, the update leaves every row as it was |
| Migrations.CollationKeepsUpperCase | alembic/versions/004_normalize_enum_values.py:20 | a stored ADMIN role stays upper case under a case-insensitive comparison and becomes admin under an exact one |
| Migrations.ApplyMySql | alembic/versions/006_add_reply_to_id_to_chat_messages.py:46 | an operation MySQL completes leaves what the plain operation leaves, and MySQL refuses exactly what the plain operation refuses plus dropping an index that alone serves one of its table's foreign keys (InnoDB error 1553) |
| Migrations.RunMySql | alembic/versions/007_add_lounge_subscriptions.py:77-90 | a function body MySQL completes leaves what the plain run leaves, and a body without index drops runs the same under both |
| Migrations.NewColumnServesNoOldKey | alembic/versions/006_add_reply_to_id_to_chat_messages.py:38-42 | an index whose first column is new serves no foreign key that names only the table's earlier columns |
| Migrations.NewColumnIndexFree | alembic/versions/007_add_lounge_subscriptions.py:36-40 | when the table keeps its earlier keys, all on earlier columns, no key needs an index led by a new column, so MySQL lets it be dropped |
| Migrations.RunElsewhere | alembic/versions/007_add_lounge_subscriptions.py:42-74 | operations on other tables leave a table, and whether it exists, unchanged |
| Migrations.DropIndexesThenTable | alembic/versions/009_add_lounge_resources.py:43-49 | dropping a table's indexes one by one and then the table leaves what dropping the table alone leaves |
| Migrations.FreeIndexFirst | alembic/versions/007_add_lounge_subscriptions.py:87-90 | a body whose only index drop comes first and drops an index no key needs runs under MySQL as under the plain run |
| Migrations.TableFirstDowngrade | alembic/versions/007_add_lounge_subscriptions.py:77-90 | dropping a table at once instead of index by index ends, under MySQL, where the longer downgrade ends under the plain run |
| BackgroundJobModel.JobStatusValue | app/db/models/background_job.py:13-18 | each job status is stored as a non-empty lower-case value |
| BackgroundJobModel.JobTypeValue | app/db/models/background_job.py:21-26 | each job type is stored as a non-empty value |
| BackgroundJobModel.JobStatusValueInjective | app/db/models/background_job.py:13-18 | two statuses with the same stored value are the same status |
| BackgroundJobModel.ProgressPercent | app/db/models/background_job.py:67-73 | zero when there are no steps, otherwise the percentage whose product with the total is completed times 100, and within 0..100 when completed <= total |
| BackgroundJobModel.ProgressEnds | app/db/models/background_job.py:71 | all steps done gives 100 percent, none done gives 0 |
| BackgroundJobModel.ProgressMonotonic | app/db/models/background_job.py:71 | more completed steps never lower the percentage |
| BackgroundJobModel.Round1 | app/db/models/background_job.py:102 | `round(p, 1)` is a whole number of tenths within 0.05 of p |
| BackgroundJobModel.Round1Tenths | app/db/models/background_job.py:102 | a value already at one decimal is left as it is |
| BackgroundJobModel.Round1Range | app/db/models/background_job.py:102 | rounding keeps a progress value in 0..100 |
| BackgroundJobModel.BackgroundJob.constructor | app/db/models/background_job.py:34-65 | a new row is PENDING with progress 0, one total step and none completed unless given |
| BackgroundJobModel.BackgroundJob.UpdateProgress | app/db/models/background_job.py:67-73 | records both step counts and the percentage; the step label changes only for a non-empty label; nothing else changes |
| BackgroundJobModel.BackgroundJob.MarkProcessing | app/db/models/background_job.py:75-78 | status PROCESSING and started_at set; nothing else changes |
| BackgroundJobModel.BackgroundJob.MarkCompleted | app/db/models/background_job.py:80-86 | status COMPLETED, progress 100, completed_at set, result replaced only by a non-empty one |
| BackgroundJobModel.BackgroundJob.MarkFailed | app/db/models/background_job.py:88-92 | status FAILED with the error message and completed_at; progress and result kept |
| BackgroundJobModel.BackgroundJob.ToDict | app/db/models/background_job.py:94-111 | the dictionary carries the enum values, the progress rounded to one decimal and every other column unchanged |
| BillingModel.StatusValue | app/db/models/billing.py:26-31 | a subscription status is active exactly when its stored value is "active" or "trialing" |
| BillingModel.DaysUntilRenewal | app/db/models/billing.py:118-124 | 0 for an inactive subscription; otherwise the whole days until renewal, never negative |
| BillingModel.PriceCents | app/db/models/billing.py:208-213 | 2500 cents for a monthly lounge plan, 24000 for a yearly one |
| BillingModel.YearlyIsCheaper | app/db/models/billing.py:208-213 | a yearly lounge plan costs less than twelve monthly ones |
| BillingModel.NewSubscription | app/db/models/billing.py:88-105 | a new platform subscription starts TRIALING (so active) and not cancelled, for the given user, plan and Stripe id |
| BillingModel.NewPayment | app/db/models/billing.py:134-150 | a new payment is PENDING in USD for the given user and amount |
| BillingModel.NewLoungeSubscription | app/db/models/billing.py:169-195 | a new lounge subscription starts ACTIVE and not cancelled, for the given user, lounge and plan |
| BillingModel.DaysUntilRenewalZeroIffDue | app/db/models/billing.py:215-221 | an active subscription reports 0 days exactly when renewal is less than a day away |
| ChatModel.NewThread | app/db/models/chat.py:28-42 | a new thread is OPEN for the given user, lounge and title |
| ChatModel.ThreadMessages | app/db/models/chat.py:47-52 | the relationship lists exactly the thread's messages, ordered by creation time |
| ChatModel.LastMessageAtIsLatest | app/db/models/chat.py:59-64 | the value is no earlier than any message of the thread, is attained by one when there are messages, and is the thread's own creation time when there are none |
| ChatModel.LastMessageAtBounds | app/db/models/chat.py:59-64 | every message of the thread was created no later than `last_message_at` |
| ChatModel.LastMessageAtAttained | app/db/models/chat.py:59-64 | with messages, some message of the thread carries exactly `last_message_at` |
| ChatModel.HasAttachmentsIff | app/db/models/chat.py:99-102 | `has_attachments` holds exactly when some attachment points at the message |
| FileModel.FindFile | app/services/file_service.py:143 | the lookup by id returns a row with that id, or none exists |
| FileModel.SizeMb | app/db/models/file.py:34-37 | the size in megabytes times 1024*1024 is the size in bytes |
| FileModel.ClassesDisjoint | app/db/models/file.py:39-63 | a file is at most one of image, video, audio and document |
| LoungeModel.NewLounge | app/db/models/lounge.py:27-47 | a new lounge is FREE, publicly listed and uncapped, with the given id, mentor and slug |
| LoungeModel.StripeColumnsUnmapped | app/db/models/lounge.py:25-47 | the Lounge class maps none of the three Stripe columns that migration 007 adds; with the added columns mapped, all three are |
| LoungeModel.NewMembership | app/db/models/lounge.py:81-96 | a new membership has role MEMBER and is active, for the given lounge, user and join time |
| LoungeModel.MemberCount | app/db/models/lounge.py:65-68 | the active-member count never exceeds the number of membership rows |
| LoungeModel.MemberCountAppend | app/db/models/lounge.py:65-68 | adding a membership raises the count by one exactly when it is an active membership of this lounge |
| LoungeModel.MemberCountIgnoresOthers | app/db/models/lounge.py:65-68 | memberships of other lounges and left memberships do not count |
| LoungeModel.ZeroCapIsFull | app/db/models/lounge.py:70-75 | a cap of zero makes a lounge full even when empty; only a missing cap means unlimited |
| LoungeModel.LeavingDecrementsCount | app/db/models/lounge.py:65-68 | stamping `left_at` on an active membership lowers the count by one |
| LoungeModel.CascadeDeleteMentor | app/db/models/mentor.py:50-54 | deleting a mentor keeps exactly the lounges of other mentors |
| LoungeModel.FindLounge | app/services/lounge_resource_service.py:54 | the lookup by id returns a lounge with that id, or none exists |
| LoungeModel.FindLoungeBySlug | app/api/v1/lounges.py:254-256 | the lookup by slug returns a lounge with that slug, or none exists |
| LoungeModel.FindActiveMembership | app/services/chat_service.py:46-50 | returns an active membership of the user in the lounge, or none exists |
| LoungeResourceModel.FileOf | app/db/models/lounge_resource.py:26 | the resource's file row when it still exists, otherwise none |
| LoungeResourceModel.FileUrl | app/db/models/lounge_resource.py:29-34 | the file's storage path, None exactly when the file is missing |
| LoungeResourceModel.FileType | app/db/models/lounge_resource.py:36-41 | the file's MIME type, None exactly when the file is missing |
| LoungeResourceModel.FileSize | app/db/models/lounge_resource.py:43-48 | the file's size, 0 when the file is missing |
| LoungeResourceModel.CascadeDeleteLounge | app/db/models/lounge_resource.py:16 | deleting a lounge keeps exactly the resources of other lounges |
| LoungeResourceModel.CascadeDeleteFile | app/db/models/lounge_resource.py:17 | deleting a file keeps exactly the resources that use other files |
| KnowledgeBaseModel.ChunkCount | app/db/models/knowledge_base.py:123-126 | the chunk count never exceeds the number of chunk rows, and is 0 exactly when no chunk points at the document |
| KnowledgeBaseModel.CountZeroIffNone | app/db/models/knowledge_base.py:123-126 | counting a document's chunks gives 0 exactly when none points at it |
| KnowledgeBaseModel.HelpfulnessRatio | app/db/models/knowledge_base.py:203-209 | 0 with no votes, otherwise helpful divided by all votes, always within 0..1 |
| KnowledgeBaseModel.HelpfulnessExtremes | app/db/models/knowledge_base.py:203-209 | only helpful votes give 1, only unhelpful votes give 0 |
| KnowledgeBaseModel.OrmDeleteCategoryPrompts | app/db/models/knowledge_base.py:30 | the ORM delete of a category keeps exactly the prompts of other categories |
| KnowledgeBaseModel.OrmDeleteCategoryDocuments | app/db/models/knowledge_base.py:31 | the ORM delete of a category keeps exactly the documents of other categories |
| KnowledgeBaseModel.OrmDeleteCategoryFaqs | app/db/models/knowledge_base.py:32 | the ORM delete of a category keeps exactly the FAQs of other categories |
| KnowledgeBaseModel.FkDeleteCategoryPrompts | app/db/models/knowledge_base.py:46 | the `ON DELETE SET NULL` key alone keeps every prompt and clears only the category of the deleted one |
| KnowledgeBaseModel.CategoryCascadeDisagreesWithForeignKey | app/db/models/knowledge_base.py:30-46 | when a prompt belongs to the category, the ORM cascade keeps fewer prompts than the foreign key would |
| KnowledgeBaseModel.DeleteDocumentChunks | app/db/models/knowledge_base.py:116-138 | deleting a document keeps exactly the chunks of other documents |
| KnowledgeBaseModel.DeletedDocumentHasNoChunks | app/db/models/knowledge_base.py:116-138 | after the delete the document's chunk count is 0 |
| MentorModel.NewMentor | app/db/models/mentor.py:19-45 | a new profile is PENDING and so not active, with the given id, user and experience |
| MentorModel.FindMentor | app/db/models/mentor.py:19-24 | the lookup by id returns a profile with that id, or none exists |
| MentorModel.FindMentorByUser | app/db/models/mentor.py:25-30 | the lookup by user returns that user's profile, or none exists |
| MentorModel.AppendKeepsUniqueUserIds | app/db/models/mentor.py:25-30 | adding a profile for a user without one keeps the unique constraint on user_id |
| MentorModel.ProfileUnique | app/db/models/mentor.py:25-30 | under the unique constraint a user's profile is the one at its position |
| MiscModel.ParseNotificationStatus | app/db/models/misc.py:20-24 | a parsed status has exactly the given stored value |
| MiscModel.NotificationStatusValues | app/db/models/misc.py:20-24 | exactly "queued", "sent" and "read" parse, and every status parses back from its value |
| MiscModel.NewNotification | app/db/models/misc.py:27-44 | a new notification is QUEUED, neither read nor sent, for the given user and channel |
| MiscModel.NewComplianceRequest | app/db/models/misc.py:126-139 | a new compliance request is PENDING and not complete |
| MiscModel.CompleteIffFinished | app/db/models/misc.py:143-147 | a request is complete exactly when it is neither pending nor processing |
| NoteModel.TagList | app/db/models/note.py:37-40 | the stored tags, or the empty list when there are none |
| NoteModel.WordsBoundedByLength | app/db/models/note.py:42-45 | there are never more whitespace-separated words than characters |
| NoteModel.BlankNoteHasNoWords | app/db/models/note.py:42-45 | content made only of whitespace has no words |
| NoteModel.DaysUntilUnlock | app/db/models/note.py:96-102 | 0 unless LOCKED; otherwise the whole days left until unlock_at, never negative |
| NoteModel.UnlockableHasNoDaysLeft | app/db/models/note.py:88-102 | a capsule that is unlockable has 0 days left |
| SystemModel.CompletionDisagreesOnRejected | app/db/models/system.py:175-178 | a rejected request is complete for the misc.py class but not completed for the system.py one |
| SystemModel.GetTypedValue | app/db/models/system.py:217-229 | no value reads as None; "int" parses the integer; "bool" is true exactly for true/1/yes in any case; other types keep the text |
| SystemModel.IntSettingRoundTrip | app/db/models/system.py:223-224 | an integer written as its decimal text reads back as the same integer |
| SystemModel.BoolSettingCaseInsensitive | app/db/models/system.py:225-226 | a bool setting reads the same whatever the capitalisation of the stored text |
| UserModel.ParseRole | app/db/models/user.py:11-15 | a parsed role has exactly the given stored value |
| UserModel.ParseRoleValue | app/db/models/user.py:11-15 | every role parses back from its stored value |
| UserModel.ParseRoleExactlyValues | app/db/models/user.py:11-15 | exactly "member", "mentor" and "admin" parse |
| UserModel.NewUser | app/db/models/user.py:18-37 | a new user is a MEMBER, not active (e-mail unverified), neither admin nor mentor |
| UserModel.RolesExclusive | app/db/models/user.py:111-119 | no user is both admin and mentor, and a member is neither |
| UserModel.FindUser | app/db/models/user.py:18-22 | the lookup by id returns a user with that id, or none exists |
| UserModel.FindUserByEmail | app/db/models/user.py:24 | the lookup by e-mail returns a user with that address, or none exists |
| UserModel.ProviderValue | app/db/models/auth.py:11-13 | the only OAuth provider is stored as "google" |
| UserModel.Revoke | app/db/models/auth.py:42-55 | revoking stamps revoked_at and changes nothing else |
| UserModel.RevokedNeverActive | app/db/models/auth.py:58-62 | a revoked session is never active |
| UserModel.ExpiredSessionInactive | app/db/models/auth.py:58-62 | a session past its expiry is inactive whatever its creation time |
| UserModel.SessionActiveEarlier | app/db/models/auth.py:58-62 | a session active now was active at every earlier instant |
| NewsletterApi.FindSubscriber | app/api/v1/newsletter.py:46-48 | the lookup finds an index holding the lower-cased e-mail, or none exists |
| NewsletterApi.SubscriberIp | app/api/v1/newsletter.py:68-71 | without a forwarded header the client host is kept, otherwise the first forwarded address, which holds no comma |
| NewsletterApi.Subscribe | app/api/v1/newsletter.py:32-86 | subscribing always succeeds and leaves the lower-cased e-mail active: a known active address answers already subscribed and changes nothing; a known unsubscribed one is reactivated in place with a fresh subscription time and no unsubscription time; a new one is appended with the given id, the lower-cased address, the client address (first forwarded hop) and the source; no other subscriber changes |
| NewsletterApi.SubscribeIdempotent | app/api/v1/newsletter.py:50-55 | subscribing again with the same e-mail in any case answers already subscribed and changes nothing |
| NewsletterApi.SubscribeKeepsEmailsUnique | app/api/v1/newsletter.py:46-80 | subscribing keeps e-mails unique and adds a row only for a new e-mail |
| NewsletterApi.Unsubscribe | app/api/v1/newsletter.py:89-122 | an unknown e-mail gives 404, otherwise that subscriber ends unsubscribed and no other changes |
| NewsletterApi.ResubscribeRoundTrip | app/api/v1/newsletter.py:56-65 | subscribing after unsubscribing reactivates the same row, answers resubscribed and resets its dates |
| NewsletterApi.NewsletterStore.constructor | app/api/v1/newsletter.py:32-122 | the store starts without subscribers |
| NewsletterApi.NewsletterStore.SubscribeRoute | app/api/v1/newsletter.py:32-86 | the subscriber table becomes the subscription's result, using one id when a row is added |
| NewsletterApi.NewsletterStore.UnsubscribeRoute | app/api/v1/newsletter.py:89-122 | the subscriber table becomes the result on success and is unchanged on 404 |
| NoteService.NewNote | app/services/note_service.py:54-63 | a new note carries the request's fields, the owner, the tags or an empty list, and the current time |
| NoteService.ApplyNotePatch | app/services/note_service.py:125-146 | an update never changes a note's id, owner, lounge or creation time, and stamps the update time |
| NoteService.NotePatchLaws | app/services/note_service.py:125-146 | an empty update only stamps the time, repeating an update equals doing it once, and two updates compose field by field |
| NoteService.AllTagsStep | app/services/note_service.py:179-185 | filtering tag by tag keeps a note exactly when it has every tag so far |
| NoteService.NarrowByTags | app/services/note_service.py:179-185 | the loop keeps exactly the notes that have every requested tag |
| NoteService.SearchSound | app/services/note_service.py:154-199 | search returns at most limit of the user's matching notes, pinned first, then most recently updated |
| NoteService.SearchComplete | app/services/note_service.py:154-199 | when the matches fit within the limit, search returns all of them |
| NoteService.ListingsExact | app/services/note_service.py:201-243 | the pinned listing is exactly the user's pinned notes, most recent first, and the tag listing exactly the user's notes with every tag |
| NoteService.UnlockAll | app/services/note_service.py:349-353 | unlocking treats each capsule on its own, in order |
| NoteService.UnlockDue | app/services/note_service.py:324-358 | the loop unlocks every due capsule and returns exactly the newly unlocked ones |
| NoteService.UnlockStep | app/services/note_service.py:349-353 | each loop step extends both the table and the unlocked list by the next capsule |
| NoteService.UnlockAllSnoc | app/services/note_service.py:349-353 | unlocking a longer table extends the result by the new capsule's result |
| NoteService.UnlockAllEffect | app/services/note_service.py:340-353 | after unlocking no capsule is due; due capsules become unlocked now and the others are unchanged; one is returned per due capsule |
| NoteService.UnlockIdempotent | app/services/note_service.py:340-353 | unlocking twice at the same time equals unlocking once, and leaves nothing due |
| NoteService.CountNone | app/services/note_service.py:356-357 | a table with no due capsule gives an empty unlocked list |
| NoteService.UnlockKeepsStatusOrder | app/services/note_service.py:340-353 | unlocking never touches an expired capsule, never relocks one, and leaves locked only those not yet due |
| NoteService.ApplyCapsulePatch | app/services/note_service.py:471-483 | an update never changes a capsule's id, owner, status or creation time, and stamps the update time |
| NoteService.CapsuleDaysUntilUnlock | app/services/note_service.py:522-539 | the days until unlock exist exactly for a locked capsule and are the whole days left, never negative |
| NoteService.DaysUntilUnlockAgree | app/services/note_service.py:522-539 | the service's count agrees with the model's own days-until-unlock |
| NoteService.UserCapsulesExact | app/services/note_service.py:408-432 | the listing is exactly the user's capsules of the requested status, soonest unlock first |
| NoteService.NoteStore.constructor | app/services/note_service.py:21-23 | a new store holds no notes or capsules |
| NoteService.NoteStore.OwnedNote | app/services/note_service.py:117-123 | the lookup finds the user's note with the id, and fails only when they own none |
| NoteService.NoteStore.OwnedCapsule | app/services/note_service.py:380-386 | the lookup finds the user's capsule with the id, and fails only when they own none |
| NoteService.NoteStore.CreateNote | app/services/note_service.py:25-73 | a new note with a fresh id is appended and owned by the user, and an embedding is scheduled exactly for a RAG note |
| NoteService.NoteStore.UpdateNote | app/services/note_service.py:85-152 | an unowned note is refused; otherwise only that note is patched, and re-embedding is scheduled when content changed on a RAG note |
| NoteService.NoteStore.DeleteNote | app/services/note_service.py:245-277 | an unowned note is refused; otherwise exactly that note is removed |
| NoteService.NoteStore.SearchNotes | app/services/note_service.py:154-199 | the search method returns the defined search results |
| NoteService.NoteStore.GetNotesByTags | app/services/note_service.py:221-243 | the method returns exactly the user's notes with every tag |
| NoteService.NoteStore.CreateTimeCapsule | app/services/note_service.py:279-322 | an unlock time not in the future is refused; otherwise a locked capsule with a fresh id is appended |
| NoteService.NoteStore.UnlockCapsules | app/services/note_service.py:324-358 | every due capsule is unlocked and exactly those are returned |
| NoteService.NoteStore.UnlockSingleCapsule | app/services/note_service.py:360-406 | an unowned capsule, an unlocked one or one not yet due is refused; otherwise only it becomes unlocked |
| NoteService.NoteStore.UpdateCapsule | app/services/note_service.py:434-487 | an unowned or non-locked capsule, or a new unlock time not in the future, is refused; otherwise only it is patched |
| NoteService.NoteStore.DeleteCapsule | app/services/note_service.py:489-520 | an unowned capsule is refused; otherwise exactly it is removed |
| NotesApi.TagQuery | app/api/v1/notes.py:57-58 | each comma-separated tag of the query is stripped and lower-cased, one per piece |
| NotesApi.TagQueryShape | app/api/v1/notes.py:58 | the tag query has at least one tag, each lower-case and without commas |
| NotesApi.LowerKeepsComma | app/api/v1/notes.py:58 | lower-casing introduces no comma |
| NotesApi.Items | app/api/v1/notes.py:74-91 | each listed note gets its own item, in order |
| NotesApi.ListNotes | app/api/v1/notes.py:30-104 | the route returns the defined page of the user's filtered notes |
| NotesApi.ListedRows | app/api/v1/notes.py:48-60 | filtering by owner, lounge, pin and then tag by tag keeps exactly the listed notes |
| NotesApi.NotesPageSound | app/api/v1/notes.py:62-104 | a page shows at most limit of the user's notes, pinned first, with the filtered total and enough pages to hold it (one when empty) |
| NotesApi.GetNoteRoute | app/api/v1/notes.py:156-193 | a note is shown exactly when the user owns it; otherwise 404 |
| NotesApi.UpdateNoteRoute | app/api/v1/notes.py:196-241 | an unowned note is 404 and nothing changes; otherwise the patch is applied and the section kept |
| NotesApi.DeleteNoteRoute | app/api/v1/notes.py:244-268 | delete answers 204 exactly for an owned note and 404 otherwise, changing nothing then |
| NotesApi.SearchItem | app/api/v1/notes.py:290-312 | a search item carries a content preview only when content was asked for |
| NotesApi.SectionsOf | app/api/v1/notes.py:337-348 | the sections listed are exactly those of the user's notes with a non-empty section |
| NotesApi.SectionsExact | app/api/v1/notes.py:337-348 | the sections are distinct, in ascending order, and never empty |
| NotesApi.ShownCapsule | app/api/v1/notes.py:519-537 | a capsule's content is shown exactly when it is unlocked, and is then its content |
| NotesApi.HiddenCapsule | app/api/v1/notes.py:474-488 | a newly created or updated capsule is shown without content, as locked |
| NotesApi.OpenedCapsule | app/api/v1/notes.py:632-648 | an unlocked capsule is shown with its content and no days to wait |
| NotesApi.HiddenAgreesWithShown | app/api/v1/notes.py:474-537 | for a locked capsule the hidden view is the general view |
| NotesApi.OpenedAgreesWithShown | app/api/v1/notes.py:519-648 | for an unlocked capsule the opened view is the general view |
| NotesApi.CapsuleList | app/api/v1/notes.py:396-446 | the listing shows each of the user's selected capsules, in order |
| NotesApi.ListedCapsulesKeepSecrets | app/api/v1/notes.py:419-438 | only the user's unlocked capsules show content |
| NotesApi.CreateCapsuleRoute | app/api/v1/notes.py:449-494 | an unlock time not in the future is 400 and adds nothing; otherwise one locked capsule is added and shown without content |
| NotesApi.Handle | app/api/v1/notes.py:396-654 | a capsule route succeeds exactly when nothing raises; a type or attribute error ends in 500 |
| NotesApi.LoungeAttributesMissing | app/db/models/note.py:67-78 | capsules have no lounge column, and no capsule service call takes a lounge |
| NotesApi.CapsuleRoutesFailAsWritten | app/api/v1/notes.py:396-654 | as written listing, creating, reading, updating and unlocking capsules fail; update and unlock commit first and then fail |
| NotesApi.CapsuleRoutesCorrected | app/api/v1/notes.py:396-654 | without the lounge arguments and fields, every capsule route succeeds when the capsule is found, and refusals keep their statuses |
| NotesApi.CreateCapsuleRouteSucceeds | app/api/v1/notes.py:474-488 | a new locked capsule due later is shown with its days until unlock |
| NotesApi.NoteColumnsMissingAsWritten | app/db/models/note.py:19-27 | the note class maps neither lounge_id nor section, which the routes use; with them every used column exists |
| NotificationsApi.ParseChannel | app/api/v1/notifications.py:184 | a channel parses exactly when it is email or in_app, and prints back to the same text |
| NotificationsApi.ShownSound | app/api/v1/notifications.py:39-51 | at most limit of the caller's notifications, each matching the read and channel filters, newest first; with no offset and few enough matches, all of them |
| NotificationsApi.ListNotifications | app/api/v1/notifications.py:24-70 | one entry per shown notification, in order, read exactly when it has a read time and sent exactly when it has a sent time; the unread filter shows none read |
| NotificationsApi.Marked | app/api/v1/notifications.py:101-111 | marking applies the per-row rule to every notification and keeps their number |
| NotificationsApi.MarkRead | app/api/v1/notifications.py:92-117 | the loop over the notifications produces exactly the marked table |
| NotificationsApi.MarkedOnlyOwnAndIdempotent | app/api/v1/notifications.py:101-111 | marking leaves other users' and already read notifications unchanged, and marking again changes nothing |
| NotificationsApi.MarkAllClearsBadge | app/api/v1/notifications.py:120-142 | marking all read leaves the caller no unread notification and every other user's count unchanged |
| NotificationsApi.MarkReadLowersBadge | app/api/v1/notifications.py:92-117 | marking never raises the unread count, and ids naming none of the caller's unread notifications leave it unchanged |
| NotificationsApi.MarkedCountMono | app/api/v1/notifications.py:92-142 | marking never raises the caller's unread count |
| NotificationsApi.DeleteRow | app/api/v1/notifications.py:145-171 | a notification not owned by the caller gives 404, otherwise exactly one of the caller's notifications is removed and other users' remain |
| NotificationsApi.CreateTest | app/api/v1/notifications.py:174-211 | a test notification is created sent and unread on the requested channel, and an unknown channel gives 500 |
| NotificationsApi.NotificationStore.constructor | app/api/v1/notifications.py:24-211 | the store starts without notifications |
| NotificationsApi.NotificationStore.MarkSelectedRead | app/api/v1/notifications.py:92-117 | the table becomes the marked one for the selected ids |
| NotificationsApi.NotificationStore.MarkAllRead | app/api/v1/notifications.py:120-142 | the table becomes the marked one and the caller has no unread notification left |
| NotificationsApi.NotificationStore.DeleteNotification | app/api/v1/notifications.py:145-171 | the table loses the notification on success and is unchanged on 404 |
| NotificationsApi.NotificationStore.CreateTestNotification | app/api/v1/notifications.py:174-211 | the table grows by the new notification on success and is unchanged on failure |
| PublicChatbotService.FilterData | app/services/public_chatbot_service.py:39-53 | empty required fields are dropped, empty nullable fields become null, every other field is kept as given |
| PublicChatbotService.FilterDataStable | app/services/public_chatbot_service.py:39-53 | filtered data holds no empty string in a filtered field, and filtering twice changes nothing |
| PublicChatbotService.Apply | app/services/public_chatbot_service.py:59-63 | corrected update: a null nullable field clears it, without nulls it is the written update, and the embedding is untouched |
| PublicChatbotService.Create | app/services/public_chatbot_service.py:55-58 | creating a configuration succeeds exactly when every key is a column with a fitting value; it starts without embedding, with the default name and enabled when not given |
| PublicChatbotService.PromptToEmbed | app/services/public_chatbot_service.py:66-67 | a prompt chosen for embedding is never empty |
| PublicChatbotService.EmbedAsWritten | app/services/public_chatbot_service.py:66-74 | as written: the embedding is stored when the call succeeds, and the model name is never changed, because reading the undeclared setting raises after the vector is assigned |
| PublicChatbotService.Embed | app/services/public_chatbot_service.py:66-74 | corrected: without a prompt the configuration is unchanged; only the embedding and its model can change, and a stored embedding always carries the configured model name (config.py names it OPENAI_EMBEDDING_MODEL) |
| PublicChatbotService.EmbeddingModelStaleAsWritten | app/services/public_chatbot_service.py:71 | EMBEDDING_MODEL is not a declared setting; as written a new embedding is stored beside the old model name, while the corrected step records the configured model |
| PublicChatbotService.UpdateConfig | app/services/public_chatbot_service.py:31-78 | corrected (nulls clear, model name recorded): an existing configuration is always updated; a new one is created exactly when its filtered data fits the columns |
| PublicChatbotService.ClearPromptIgnoredAsWritten | app/services/public_chatbot_service.py:59-67 | as written, sending an empty system prompt keeps the old prompt and re-embeds it |
| PublicChatbotService.EmptyingFieldsAsIntended | app/services/public_chatbot_service.py:39-63 | corrected, empty system prompt and avatar clear them while an empty name keeps the stored name |
| PublicChatbotService.UnknownKey | app/services/public_chatbot_service.py:55-63 | an unknown key makes creation fail and is ignored when updating |
| PublicChatbotService.PromptWithRag | app/services/public_chatbot_service.py:105-125 | without context the prompt is the base prompt; otherwise it is the base prompt, the knowledge header, the context and the footer, in that order |
| PublicChatbotService.BasePrompt | app/services/public_chatbot_service.py:189 | the base prompt is never empty and is the configured prompt when one is set |
| PublicChatbotService.ThresholdScale | app/services/public_chatbot_service.py:195 | the stored percentage scales to the default threshold at its default and keeps order |
| PublicChatbotService.Turns | app/services/public_chatbot_service.py:147-150 | each history message becomes one role and content turn, in order |
| PublicChatbotService.RecentSound | app/services/public_chatbot_service.py:131-150 | the history holds the session's latest messages up to the limit, oldest first |
| PublicChatbotService.ClearSession | app/services/public_chatbot_service.py:311-317 | clearing keeps exactly the messages of other sessions |
| PublicChatbotService.ClearSessionIsolated | app/services/public_chatbot_service.py:311-317 | after clearing, the session has no history and every other session's history is unchanged |
| PublicChatbotService.SystemPrompt | app/services/public_chatbot_service.py:192-201 | without retrieval the system prompt is the base prompt, and it always starts with the base prompt |
| PublicChatbotService.SendMessage | app/services/public_chatbot_service.py:170-221 | a missing or disabled chatbot is refused with nothing saved; otherwise the user message is saved first, and a reply is saved and returned on success or a failure message returned otherwise |
| PublicChatbotService.NewMessageEndsHistory | app/services/public_chatbot_service.py:183-186 | the message just saved is the last turn of the history sent to the model |
| PublicChatbotService.NewestSortsFirst | app/services/public_chatbot_service.py:136-141 | the newest message of a session comes first when sorted newest first |
| PublicChatbotService.ChunkEvents | app/services/public_chatbot_service.py:280-288 | each streamed piece becomes one chunk event, in order |
| PublicChatbotService.SendMessageStream | app/services/public_chatbot_service.py:223-309 | a disabled chatbot yields one error event; otherwise the user message is saved and announced first, and the stream ends with the completed reply, saved as the concatenation of the pieces, or with an error event |
| PublicChatbotService.ChatbotStore.constructor | app/services/public_chatbot_service.py:21-25 | the store starts without configuration and without messages |
| PublicChatbotService.ChatbotStore.UpdateConfigRow | app/services/public_chatbot_service.py:31-78 | the stored configuration becomes the corrected update's result when it succeeds and is otherwise unchanged; messages are untouched |
| PublicChatbotService.ChatbotStore.Send | app/services/public_chatbot_service.py:170-221 | the stored messages become those the send produces, with one id used per saved message |
| PublicChatbotService.ChatbotStore.Clear | app/services/public_chatbot_service.py:311-317 | the stored messages lose exactly the session's messages and the call reports true |
| Schemas.LengthError | app/schemas/auth.py:14-15 | a string field passes its `min_length`/`max_length` constraint exactly when its length lies within both bounds |
| Schemas.RangeError | app/schemas/lounge.py:18 | an integer field passes its `ge`/`le` constraint exactly when it lies within the given bounds |
| Schemas.CleanTagShape | app/schemas/note.py:21 | a kept tag is the stripped tag lower-cased, and carries no surrounding blanks or capitals |
| Schemas.CleanTags | app/schemas/note.py:21 | tag cleaning never lengthens the list |
| Schemas.CleanTagsClean | app/schemas/note.py:21 | every tag the cleaning keeps is stripped and lower-case |
| Schemas.CleanTagsFromInput | app/schemas/note.py:21 | every cleaned tag comes from a non-blank input tag, stripped and lower-cased |
| Schemas.CleanTagsKeepsNonBlank | app/schemas/note.py:21 | every non-blank input tag survives, stripped and lower-cased |
| Schemas.CleanTagsIdempotent | app/schemas/note.py:21 | cleaning an already cleaned tag list changes nothing |
| Schemas.ValidateTags | app/schemas/note.py:17-21 | more than 20 tags is refused with "Maximum 20 tags allowed", otherwise the cleaned list (at most 20 tags) is kept |
| Schemas.ValidateTagsIdempotent | app/schemas/note.py:17-21 | validating an accepted tag list a second time yields the same result |
| Schemas.ValidateSlug | app/schemas/lounge.py:23-28 | a slug is refused exactly when it is not alphanumeric once hyphens and underscores are removed, and an accepted slug is lower-cased |
| Schemas.SlugCharsExact | app/schemas/lounge.py:25 | the slug test holds exactly when the slug has at least one alphanumeric character and every character is alphanumeric, a hyphen or an underscore |
| Schemas.SlugNormalised | app/schemas/lounge.py:23-28 | an accepted slug keeps its length, is lower-case, uses only the allowed characters and is accepted again unchanged |
| Schemas.Utf8Len | app/schemas/auth.py:20 | the UTF-8 byte length of a password is at least its character count |
| Schemas.CheckPasswordStrength | app/schemas/auth.py:63-68 | a reset or changed password passes exactly when it has a digit and an upper-case letter |
| Schemas.CheckRegistrationPassword | app/schemas/auth.py:17-27 | a registration password passes exactly when it is at most 72 UTF-8 bytes and has a digit and an upper-case letter |
| Schemas.ValidateRegistration | app/schemas/auth.py:11-27 | a registration is accepted exactly when the password passes its length and strength checks and the name is 2 to 255 characters; it is then kept unchanged |
| Schemas.RegistrationAccepted | app/schemas/auth.py:11-27 | an accepted registration has a password of 8 to 72 characters and at most 72 bytes with a digit and a capital, and a name of 2 to 255 characters |
| Schemas.RegistrationPasswordOk | app/schemas/auth.py:14-27 | a password accepted at registration is at least 8 characters, at most 72 bytes, with a digit and a capital |
| Schemas.PasswordLengthFirst | app/schemas/auth.py:14-27 | a password accepted at registration passes both the 8-to-100 length bounds and the byte and strength validator |
| Schemas.ByteCapOnlyAtRegistration | app/schemas/auth.py:57-108 | a password of 8 to 100 characters with a digit and a capital is always accepted for reset and change, but at registration only when it fits in 72 bytes |
| Schemas.BrandColorError | app/schemas/lounge.py:35-40 | a brand colour is accepted exactly when absent, or at most 7 characters and either empty or starting with '#' |
| Schemas.PlanError | app/schemas/lounge.py:29-34 | the plan check fails exactly when the lounge is paid and a plan_id is given that is null or zero; an omitted plan_id is never checked |
| Schemas.LoungeCreateAccepted | app/schemas/lounge.py:10-40 | an accepted lounge has a 3-to-255-character title, a normalised slug, members within 1 to 10000, a '#' colour, the defaults free and publicly listed, and a nonzero plan when paid and given |
| Schemas.PaidLoungeWithoutPlan | app/schemas/lounge.py:29-34 | a paid lounge that omits plan_id is accepted with no plan, while one that sends a null plan_id is refused |
| Schemas.ValidateLoungeUpdate | app/schemas/lounge.py:42-59 | a lounge update is accepted exactly when its given title, member cap and colour are within bounds, and is kept unchanged |
| Schemas.PaidUpdateWithoutPlan | app/schemas/lounge.py:42-59 | an update that switches a lounge to paid without a plan is accepted, because the update has no plan validator |
| Schemas.VideoUrlError | app/schemas/mentor.py:17-22 | an intro video URL passes exactly when absent, empty, or starting with http:// or https:// |
| Schemas.ValidateMentorApplication | app/schemas/mentor.py:10-22 | an application is accepted exactly when its headline is 10 to 255 characters, its bio 50 to 5000, its URL passes and its years lie in 0 to 100 |
| Schemas.ValidateMentorUpdate | app/schemas/mentor.py:24-30 | a mentor update is accepted exactly when each given field is within the application's bounds, and is kept unchanged |
| Schemas.MentorUpdateSkipsUrlCheck | app/schemas/mentor.py:17-30 | an update accepts every accepted application's fields and also a non-HTTP video URL that the application refuses |
| Schemas.ValidateCategoryCreate | app/schemas/mentor.py:88-98 | a category is accepted exactly when name and slug are 2 to 255 characters and the slug passes the slug test; the slug is lower-cased |
| Schemas.ValidateCategoryUpdate | app/schemas/mentor.py:100-109 | a category update is accepted exactly when each given field is within bounds and a given slug passes the slug test; a given slug is lower-cased and an absent one stays absent |
| Schemas.ValidateNotificationCreate | app/schemas/notification.py:29-34 | a notification is accepted exactly when its type is 1 to 100 characters, and its channel defaults to "in_app" |
| Schemas.ValidatePageCreate | app/schemas/notification.py:54-66 | a page is accepted exactly when slug and title are 1 to 255 characters, the slug passes the slug test and the content is non-empty; it is published by default and its slug lower-cased |
| Schemas.ValidatePageUpdate | app/schemas/notification.py:68-73 | a page update is accepted exactly when a given title is 1 to 255 characters and given content is non-empty, and is kept unchanged |
| Schemas.ValidateFaqUpdate | app/schemas/notification.py:95-101 | an FAQ update is accepted exactly when each given field is within its bounds and a given sort order is non-negative, and is kept unchanged |
| Schemas.FaqBounds | app/schemas/notification.py:87-101 | an FAQ accepted on create is accepted on update, has bounded question and answer and a non-negative sort order defaulting to 0 |
| Schemas.ValidateNoteCreate | app/schemas/note.py:9-22 | a note is accepted exactly when title, content and tag count are within bounds; tags are cleaned, pinned defaults to false and RAG inclusion to true |
| Schemas.NoteCreateFixpoint | app/schemas/note.py:9-22 | submitting an accepted note's own fields again yields the same note |
| Schemas.ValidateCapsuleCreate | app/schemas/note.py:71-82 | a time capsule is accepted exactly when title and content are within bounds and its unlock time is strictly after now |
| Schemas.ValidateNoteSearch | app/schemas/note.py:111-116 | a note search is accepted exactly when the query is non-empty and a given limit is 1 to 100; the limit defaults to 20 and content inclusion to true |
| Schemas.ValidatePromptCreate | app/schemas/knowledge_base.py:57-76 | a prompt is accepted exactly when title and content are within bounds and it has at most 20 tags, which are cleaned |
| Schemas.ValidatePromptUpdate | app/schemas/knowledge_base.py:83-93 | a prompt update is accepted exactly when a given title and content are within bounds, and is kept unchanged |
| Schemas.PromptUpdateSkipsTagValidator | app/schemas/knowledge_base.py:68-93 | a prompt update keeps any number of tags uncleaned, while a create with over 20 tags is refused |
| Schemas.ValidateSearch | app/schemas/knowledge_base.py:261-280 | a search is accepted exactly when the query is non-empty, each entity type is prompts, documents or faqs and a given limit is 1 to 50; the limit defaults to 10 |
| Schemas.ValidateRagRequest | app/schemas/knowledge_base.py:301-308 | a RAG request is accepted exactly when the query is non-empty and a given max_items is 1 to 20, defaulting to 5 |
| Schemas.RagRequestSkipsEntityCheck | app/schemas/knowledge_base.py:271-308 | an unknown entity type is refused by the search body but passed through by the RAG request body |
| Schemas.ValidateLoungeCheckout | app/schemas/billing.py:106-112 | a lounge checkout is accepted exactly when the plan type is "monthly" or "yearly" |
| Schemas.PricingConsistent | app/schemas/billing.py:146-152 | the advertised lounge prices equal the billing prices, the yearly price is the monthly price times 12 less 20 percent, and the display strings show those prices in dollars |
| UsersApi.UpdateUser | app/api/v1/users.py:38-61 | exactly the rows of the given user change, by the given update |
| UsersApi.PatchProfile | app/api/v1/users.py:50-56 | a given name or avatar replaces the stored one, absent ones are kept, the update time is set and nothing else changes |
| UsersApi.PatchProfileTwice | app/api/v1/users.py:50-56 | an empty patch only touches the update time, and two patches equal one patch with the later values winning |
| UsersApi.AvatarRefusal | app/api/v1/users.py:77-93 | an avatar is accepted exactly when its content type and its file extension are both allowed; a bad type is refused with the list of allowed types |
| UsersApi.AcceptedAvatarIsImage | app/api/v1/users.py:78-83 | every accepted avatar has an image content type |
| UsersApi.MembershipActivity | app/api/v1/users.py:192-202 | a current membership is reported as joined at its join time, a past one as left at its leaving time, with its lounge |
| UsersApi.SliceTo | app/api/v1/users.py:192 | slicing to a limit takes the first limit items, and a negative limit drops that many from the end |
| UsersApi.ActivitySound | app/api/v1/users.py:242-244 | the activity log holds at most limit entries from the merged activity, newest first |
| UsersApi.AppendAll | app/api/v1/users.py:192-240 | appending each row's entry extends the log by exactly the mapped rows |
| UsersApi.UserActivity | app/api/v1/users.py:177-244 | the route returns the newest limit entries of the merged memberships, threads, notes and capsules |
| UsersApi.Anonymise | app/api/v1/users.py:259-262 | deleting an account replaces e-mail, name and password with values derived from the id and clears the avatar, keeping id, role and dates |
| UsersApi.AnonymiseFreesEmail | app/api/v1/users.py:247-278 | after deletion no account holds the deleted user's e-mail and every other account is unchanged |
| UsersApi.RevokeSessions | app/api/v1/users.py:264-272 | deletion revokes exactly the user's open sessions |
| UsersApi.AccountStore.constructor | app/api/v1/users.py:24-300 | the store starts without users or sessions |
| UsersApi.AccountStore.UpdateProfile | app/api/v1/users.py:38-61 | the user table gets the patched profile, which is returned; sessions are untouched |
| UsersApi.AccountStore.UploadAvatar | app/api/v1/users.py:64-125 | a refused type or extension gives 400 and changes nothing; an upload that succeeds sets the avatar URL; a storage failure gives 500 and changes nothing |
| UsersApi.AccountStore.RemoveAvatar | app/api/v1/users.py:128-146 | the user's avatar is cleared and the updated user returned |
| UsersApi.AccountStore.ChangePassword | app/api/v1/users.py:148-175 | a wrong current password gives 400 and changes nothing, otherwise the password hash is replaced |
| UsersApi.AccountStore.DeleteAccount | app/api/v1/users.py:247-278 | the account is anonymised and its open sessions revoked |
| UsersApi.AccountStore.GetUser | app/api/v1/users.py:280-300 | an unknown id gives 404, otherwise the user with that id is returned |
| UsersApi.ChangedPasswordVerifies | app/api/v1/users.py:168-170 | after a password change the new password verifies against the stored hash |
| UsersApi.DeletionEndsSessions | app/api/v1/users.py:264-272 | after deletion none of the user's sessions is active |

## Left out

- Language-model and embedding calls, `cosine_similarity` and `find_most_similar` (app/services/ai_service.py) are network calls over floating-point vectors. The model takes replies and embeddings as parameters, and similarity ranking as an oracle over ordered scores.
- Stripe SDK calls (customers, sessions, products, prices, subscriptions, `Webhook.construct_event`) are a foreign library. Their results or failures are parameters, and `_get_or_create_customer` is not modelled beyond the customer id it yields.
- S3 storage, presigned URLs, and PDF and DOCX text extraction are I/O and foreign parsers. Stored objects are a map from key to size, and extracted text is a parameter. In the knowledge base the extracted text parameter is what extraction would yield once the file service can read content; as written it never can (see "## Findings").
- The lounge profile-image upload and delete routes (app/api/v1/lounges.py:817-965) are S3 I/O around a single column write, so they are not modelled.
- Password hashing and JWT signing are cryptography (app/core/security.py is not part of this model). Hashes are opaque strings compared for equality, and `decode_token` is a parameter returning an optional claim map.
- Sending mail and the HTML email bodies are I/O and markup. The urgency switch at three days remaining in the email templates is not modelled either.
- Background tasks, asyncio task spawning and the server-sent-event stream generators exist for concurrency. Each job's state changes are modelled as sequential methods.
- The chat routes `edit_message`, `regenerate_response` and both stream routes call service functions that chat_service.py does not define. They cannot run as written, and nothing is modelled beyond the router import failure in "## Findings".
- The Google OAuth token and user-info exchange is HTTP. Only the account-linking decision is modelled.
- The admin health endpoint reads process statistics and a clock, and is not modelled.
- app/core/timezone.py converts between time zones, and it is not modelled. Timestamps are naive UTC seconds, passed in as a `now` parameter.
- The clock is assumed to work, although as written it does not. `now_naive()` (app/core/timezone.py:20-25) calls `get_timezone()`, which reads `settings.TIMEZONE`. app/core/config.py never declares that setting and ignores undeclared names (config.py:124-125), so every call raises AttributeError. Every member that reads the clock therefore models the intended behaviour, not the 500 the code gives as written:
  - column defaults `default=now_naive`: chat.py:42 and :86, knowledge_base.py:25-190, billing.py:102, :150 and :192, newsletter.py:29, lounge_resource.py:21-22 (every insert into those tables), and `onupdate=now_naive` at knowledge_base.py:26, :60, :108 and :190 and lounge_resource.py:22 (every update of those rows that does not set `updated_at` itself);
  - direct calls: users.py:56, :109, :140, :170 and :273, mentors.py:235 and :340, newsletter.py:60 and :116, lounges.py:745;
  - the `days_until_renewal` properties, billing.py:123 and :220.
  - The members this covers include NewsletterApi.Subscribe (a new row), NewsletterApi.Unsubscribe, ChatService.ChatStore.SendMessage and CreateThread, the KnowledgeBaseService.KnowledgeBase create methods, LoungeResourceService.ResourceStore.CreateResource, LoungesApi.LoungeStore.LeaveLounge, MentorsApi.UpdateProfile, MentorsApi.MentorStore.UpdateMentorProfile and MentorsApi.MentorStore.ApproveMentor, UsersApi.AccountStore.UpdateProfile, UploadAvatar, RemoveAvatar, ChangePassword and DeleteAccount, and BillingModel.DaysUntilRenewal. As written each of them answers 500.
  - The `onupdate=now_naive` columns (knowledge_base.py:26, :60, :108 and :190) make every update of a knowledge-base row fail the same way: KnowledgeBaseService.KnowledgeBase.UpdateCategory, UpdatePrompt, UpdateDocument, UpdateFaq, ProcessDocument, ReprocessDocument, ClearPromptEmbedding and RegeneratePromptEmbedding answer 500 as written. LoungeResourceService.ResourceStore.UpdateResource is not affected, because it sets `updated_at` itself with `datetime.utcnow()` (lounge_resource_service.py:171), so `onupdate` does not fire.
  - BillingService.RecordPayment does not answer 500: the failing insert of a payment (billing.py:150) raises inside the `try` of billing_service.py:309-335, which logs the error and returns, so the webhook succeeds and records nothing, as BillingService.RecordPaymentAsWritten states for its own reason. BillingApi.GetSubscriptionAgrees is not affected: the route computes the days itself with `datetime.utcnow()` (billing.py:126).
- Random one-time codes and uuid4 names are parameters, assumed unique where the source relies on that.
- Logging handler set-up and colour codes are presentation. The records' `extra` keys are modelled.
- The capsule-unlock worker (app/workers/capsule_unlock.py) is a cron job that sends mail, so it is not modelled. Its unlock rule is the service's `unlock_capsules`, which is modelled.
- The ORM session, engine, commit and rollback are glue. A method's new tables are its committed state, and the rollback of a failed request is the unchanged `old` state.
- Float formatting is modelled only for whole cents: BillingApi.CentsText writes `cents / 100` with two decimals, which is exact for an integer number of cents. `size_mb` rounding and ISO timestamps are not modelled. Reals are used where a property needs them, and `to_dict`'s progress rounding is `Round1`.
- BillingApi.PriceDisplayShape and BillingApi.ListPlansRoute write the interval of `f"...{plan.billing_interval}"` as its stored value ("monthly"). That is how older Python releases format a `str`-mixin enum member; newer releases write `BillingInterval.MONTHLY` there, which the model does not produce.
- MySQL compares strings under a case-insensitive collation. The model compares strings exactly, except where migration 004 depends on it (see "## Findings").
- The stand-alone Stripe migration script's `main`, argument parsing and printing are I/O. Its loop and counters are modelled.
- KnowledgeBaseChunker.ChunkTextAsWritten runs with a step budget `fuel`, because the loop as written need not terminate. It answers `None` when the budget runs out, which the source never does.
- KnowledgeBaseService.KnowledgeBase.Categories orders by `sort_order` only. The source's second key, the category name, is not modelled, so categories with equal `sort_order` keep their table order instead of being ordered by name.
- AdminApi.SystemStatsOf states the growth rates as the constant 0.0 that admin.py assigns. No growth computation exists to model.
- The "application is not pending" error detail of `approve_mentor` renders the status enum's value. The way some Python releases format a `str` enum member differently is not modelled.
- LoungesApi.JoinCapacityIsIsFull: a lounge with `max_members` 0 is admitted by `join_lounge` although `is_full` reports it full. This is recorded as an observation, not a finding, because the schema forbids a maximum of zero (`ge=1`).
- SystemModel.GetTypedValue keeps a "json" setting as its unparsed text. JSON parsing is a foreign library and is not modelled.
- KnowledgeBaseModel.CategoryCascadeDisagreesWithForeignKey: the ORM cascade deletes a category's prompts while the foreign key only nulls them. The model deletes through the ORM, because the ORM issues its own deletes before the database's foreign key applies.
- NoteService.NarrowByTags, and with it NoteService.AllTagsStep, NoteService.ListingsExact, NoteService.NoteStore.GetNotesByTags, NoteService.NoteStore.SearchNotes and the tag filter of NotesApi.ListNotes, treats `Note.tags.contains([tag])` as membership of the tag in the note's list. On the JSON column SQLAlchemy compiles `contains` to a LIKE over the stored JSON text, which the source itself calls simple string matching, so the notes it matches can differ from list membership (a text match can also hit a longer tag). The model does not capture that textual match.
- PublicChatbotService.Embed, PublicChatbotService.UpdateConfig and PublicChatbotService.ChatbotStore.UpdateConfigRow state the corrected update: a stored embedding carries the configured model name. As written the model name is never written (see "## Findings"); PublicChatbotService.EmbedAsWritten and PublicChatbotService.UpdateConfigAsWritten model that.
- BillingService.BillingStore.HandlePaymentSucceeded states the corrected handler, which records the payment for the user carrying the intent's Stripe customer id. As written the row names user 0, the foreign key refuses it, and nothing is recorded; BillingService.RecordPaymentAsWritten models that (see "## Findings").
- BillingService.LoungeCheckoutPrice assumes the three Stripe columns of `lounges` are mapped. As written the Lounge class does not map them and the first read raises; BillingService.LoungeCheckoutMapped, BillingService.UpgradeChecksMapped and MigrateLounges.TallyMapped model that (see "## Findings").
- BillingService.CreateLoungeCheckoutSession assumes the three Stripe columns of `lounges` are mapped. As written the Lounge class does not map them and the first read raises; BillingService.LoungeCheckoutMapped, BillingService.UpgradeChecksMapped and MigrateLounges.TallyMapped model that (see "## Findings").
- BillingService.UpgradeRefusal assumes the three Stripe columns of `lounges` are mapped. As written the Lounge class does not map them and the first read raises; BillingService.LoungeCheckoutMapped, BillingService.UpgradeChecksMapped and MigrateLounges.TallyMapped model that (see "## Findings").
- BillingService.BillingStore.UpgradeLoungeSubscription assumes the three Stripe columns of `lounges` are mapped. As written the Lounge class does not map them and the first read raises; BillingService.LoungeCheckoutMapped, BillingService.UpgradeChecksMapped and MigrateLounges.TallyMapped model that (see "## Findings").
- MigrateLounges.StepOfCases assumes the three Stripe columns of `lounges` are mapped. As written the Lounge class does not map them and the first read raises; BillingService.LoungeCheckoutMapped, BillingService.UpgradeChecksMapped and MigrateLounges.TallyMapped model that (see "## Findings").
- MigrateLounges.MigrateExistingPaidLounges assumes the three Stripe columns of `lounges` are mapped. As written the Lounge class does not map them and the first read raises; BillingService.LoungeCheckoutMapped, BillingService.UpgradeChecksMapped and MigrateLounges.TallyMapped model that (see "## Findings").
- MigrateLounges.MigrateLounge assumes the three Stripe columns of `lounges` are mapped. As written the Lounge class does not map them and the first read raises; BillingService.LoungeCheckoutMapped, BillingService.UpgradeChecksMapped and MigrateLounges.TallyMapped model that (see "## Findings").
- MigrateLounges.DryRunReportsPending assumes the three Stripe columns of `lounges` are mapped. As written the Lounge class does not map them and the first read raises; BillingService.LoungeCheckoutMapped, BillingService.UpgradeChecksMapped and MigrateLounges.TallyMapped model that (see "## Findings").
- MigrateLounges.MigratedLoungesUntouched assumes the three Stripe columns of `lounges` are mapped. As written the Lounge class does not map them and the first read raises; BillingService.LoungeCheckoutMapped, BillingService.UpgradeChecksMapped and MigrateLounges.TallyMapped model that (see "## Findings").
- MigrateLounges.CreatedIdsCopied assumes the three Stripe columns of `lounges` are mapped. As written the Lounge class does not map them and the first read raises; BillingService.LoungeCheckoutMapped, BillingService.UpgradeChecksMapped and MigrateLounges.TallyMapped model that (see "## Findings").
- MigrateLounges.NothingPendingTally assumes the three Stripe columns of `lounges` are mapped. As written the Lounge class does not map them and the first read raises; BillingService.LoungeCheckoutMapped, BillingService.UpgradeChecksMapped and MigrateLounges.TallyMapped model that (see "## Findings").
- MigrateLounges.RerunFindsNothing assumes the three Stripe columns of `lounges` are mapped. As written the Lounge class does not map them and the first read raises; BillingService.LoungeCheckoutMapped, BillingService.UpgradeChecksMapped and MigrateLounges.TallyMapped model that (see "## Findings").
- SystemModel.CompletionDisagreesOnRejected: the two ComplianceRequest classes disagree on whether a rejected request is complete. Both are modelled as written.
- AlembicRevisions.RoundTrip006, AlembicRevisions.RoundTrip007 and AlembicRevisions.RoundTrip009 are stated over `Run`, which leaves out MySQL's refusal to drop an index a foreign key needs. Under that refusal the three downgrades fail as written; AlembicRevisions.Down006RefusedAsWritten, AlembicRevisions.Down007RefusedAsWritten and AlembicRevisions.Down009RefusedAsWritten show it, and the RoundTrip006Fixed, RoundTrip007Fixed and RoundTrip009Fixed lemmas prove the reordered downgrades (see "## Findings").
- Migrations.UndoRestores, Migrations.MirroredRoundTrip and Migrations.CreateIndexUndone are stated over `Run` and `Apply`, without MySQL's refusal to drop a needed index; Migrations.ApplyMySql and Migrations.RunMySql add it.
- The index MySQL creates by itself for a foreign key that no index serves is not modelled. MySQL drops it silently once a created index serves the key, so the schemas the revisions leave are as modelled.
- ChatService.ScoreNote lower-cases the query and the note with ASCII case mapping only, so a query `École` does not match a note containing `école`, which chat_service.py:237-242 matches with Python's Unicode `lower()`.
- ChatService.RelevantExact rests on the ASCII-only `Lower` of ChatService.ScoreNote, so notes matching only through non-ASCII case folding (`École` / `école`) are not relevant here, although chat_service.py:238-246 finds them.
- NotesApi.TagQuery lower-cases tags with ASCII case mapping only: a tag `École` stays upper-case here, while notes.py:58 folds it to `école`.
- Schemas.CleanTags lower-cases tags with ASCII case mapping only: a tag `École` is kept as written here, while schemas/note.py:21 folds it to `école`.
- Schemas.CleanTagsKeepsNonBlank is stated over the ASCII-only `Lower` of Schemas.CleanTags, so it says nothing about the Unicode case folding of schemas/note.py:21.
- Schemas.ValidateSlug tests letters and digits on the ASCII range only, and lower-cases with ASCII case mapping: the slug `café` passes `isalnum` at lounge.py:25 but is refused here.
- Schemas.SlugCharsExact characterises the ASCII-only slug test, so a slug with a non-ASCII letter or digit (`café`) that lounge.py:25 accepts is refused here.
- Schemas.SlugNormalised is stated over the ASCII-only slug test and `Lower`, so slugs with non-ASCII letters (`café`, `Café`) are outside what it covers, although lounge.py:23-28 accepts and lower-cases them.
- Schemas.CheckPasswordStrength tests digits and upper-case letters on the ASCII range only: `Éclair12` passes `isupper` at auth.py:63-68 (through `É`) but is refused here when it has no ASCII upper-case letter.
- Schemas.CheckRegistrationPassword tests digits and upper-case letters on the ASCII range only: `Éclair12`, which auth.py:17-27 accepts through `É`, is refused here.
- Schemas.ValidateRegistration uses the ASCII-only password test of Schemas.CheckRegistrationPassword, so a password whose only upper-case letter or digit is non-ASCII (`Éclair12`) is refused here and accepted by auth.py:11-27.
- Schemas.RegistrationAccepted is stated over the ASCII-only password test, so it leaves out passwords whose only upper-case letter or digit is non-ASCII (`Éclair12`), which auth.py:11-27 accepts.
- Schemas.RegistrationPasswordOk is stated over the ASCII-only digit and upper-case tests, so it leaves out passwords such as `Éclair12` that auth.py:14-27 accepts.
- Schemas.LoungeCreateAccepted is stated over the ASCII-only slug test, so it leaves out slugs with non-ASCII letters (`café`) that lounge.py:10-40 accepts.
- Schemas.ValidateCategoryCreate tests the slug on the ASCII range only and lower-cases with ASCII case mapping: `café` passes mentor.py:95 but is refused here.
- Schemas.ValidateCategoryUpdate tests the slug on the ASCII range only and lower-cases with ASCII case mapping: `café` passes mentor.py:107 but is refused here.
- Schemas.ValidatePageCreate tests the slug on the ASCII range only and lower-cases with ASCII case mapping: `café` passes notification.py:63 but is refused here.
- Common.Lower, Common.Upper, Common.IsDigit, Common.IsUpper and Common.IsAlnum cover the ASCII range only; Python's `lower`, `upper`, `isdigit`, `isupper` and `isalnum` use the Unicode tables, which are not modelled. Besides the members above, this affects the e-mail lower-casing of NewsletterApi, the boolean words of Config and SystemModel, the `Bearer` scheme test of Dependencies, the file extensions of FileService, KnowledgeBaseService and KnowledgeBaseApi, the upper-cased currencies of BillingApi and BillingService, and the case-insensitive comparisons of Migrations and AlembicRevisions: each agrees with the source on ASCII text only. Whitespace is not affected: `IsSpace` is Python's full `str.isspace` set.

## Findings

| source | as written | input that shows it | evidently intended | confidence | as-written member | corrected member |
|---|---|---|---|---|---|---|
| app/services/knowledge_base_service.py:386-418 | `_chunk_text` sets `start = end - overlap` after moving `end` back to a sentence break, so `start` can stop advancing | a text whose sentence break lies within `overlap` characters of `start` (`StuckText`) makes the loop repeat the same window forever | each step moves `start` forward, so the loop ends | high, not executed | KnowledgeBaseChunker.NonTerminatingInput | KnowledgeBaseChunker.AgreesWhenProgressing |
| app/services/knowledge_base_service.py:253-263 | the upload creates the document row without the request's `lounge_id` | a document uploaded for lounge 7 is stored as global, so a lounge-7-only listing misses it | the row keeps the lounge it was uploaded for | high, not executed | KnowledgeBaseService.UploadedDocumentLosesLounge | KnowledgeBaseService.KnowledgeBase.CreateDocument |
| app/api/v1/knowledge_base.py:998-1031 | `/jobs/{job_id}` is registered before `/jobs/recent` | `GET /jobs/recent` matches the parameter route and fails integer validation with 422 | the literal route is reached | high, not executed | KnowledgeBaseApi.RecentJobsShadowed | KnowledgeBaseApi.RouteOrderFixed |
| app/api/v1/chat.py:320-327 | the send route passes `reply_to_id`, which `send_message` does not accept and the body does not carry | any valid message body is answered 500 | the message is sent and the reply returned | high, not executed | ChatApi.SendMessageRouteAlwaysFailsAsWritten | ChatApi.SendMessageRoute |
| app/api/v1/chat.py:17-28 | the router imports `MessageUpdate` and `ReplyToInfo`, which the chat schemas do not define | importing the router fails, so the application does not start | the router imports only names that exist | high, not executed | ChatApi.ChatRouterImportFailsAsWritten | ChatApi.ChatRouterImportsResolve |
| app/api/v1/chat.py:469-504 | the 400 for a refused file type is raised inside `try` and caught by `except Exception` | uploading an `.exe` is answered 500 | the refusal is answered 400 | high, not executed | ChatApi.UploadTypeRefusalIs500AsWritten | ChatApi.UploadRoute |
| app/api/v1/auth.py:40 | the router imports `EmailOTP`, which the auth models do not define | importing the router fails, so the application does not start | the router imports only names that exist | high, not executed | AuthApi.AuthRouterImportFailsAsWritten | AuthApi.AuthRouterImportsResolve |
| app/api/v1/billing.py:284-330 | the 400 for a bad payload or signature is raised inside the outer `try` and caught as 500 | a webhook with a forged signature is answered 500 | a bad signature is answered 400 | high, not executed | BillingApi.BadSignatureIs500AsWritten | BillingApi.StripeWebhook |
| app/api/v1/billing.py:302-319 | every `checkout.session.completed` event goes to the plan handler, and no event reaches the lounge handler | a completed lounge checkout (metadata with `lounge_id`, no `plan_id`) creates no lounge subscription | a lounge checkout is handled by the lounge handler | high, not executed | BillingApi.LoungeCheckoutLostAsWritten | BillingApi.LoungeCheckoutRouted |
| app/db/models/lounge.py:32-47 | the Lounge class does not map `about` or `brand_color`, which creation passes | creating a lounge with `about` raises a TypeError, answered 500 | the columns added by revision 013 are mapped and stored | high, not executed | LoungesApi.LoungeColumnsUnmappedAsWritten | LoungesApi.LoungeStore.CreateLounge |
| app/api/v1/lounges.py:451-493 | the mentor-profile route reads attributes the Mentor class does not map | any existing mentor's profile is answered 500 | the profile is returned | high, not executed | LoungesApi.LoungeStore.MentorProfileAsWritten | LoungesApi.LoungeStore.MentorProfileRoute |
| app/services/public_chatbot_service.py:59-67 | `update_config` skips every `None` value before writing | sending a null system prompt keeps the old prompt | a nullable field can be cleared | medium, not executed | PublicChatbotService.ClearPromptIgnoredAsWritten | PublicChatbotService.EmptyingFieldsAsIntended |
| app/api/v1/notes.py:396-654 | the capsule routes pass `lounge_id` to service functions without that parameter and read `capsule.lounge_id` | listing, creating, reading, updating or unlocking a capsule is answered 500, and update and unlock have already committed | every capsule route succeeds when the capsule is found | high, not executed | NotesApi.CapsuleRoutesFailAsWritten | NotesApi.CapsuleRoutesCorrected |
| app/db/models/note.py:19-27 | the Note class maps neither `lounge_id` nor `section`, which the services read and write | creating any note raises a TypeError, because `create_note` always passes both | both columns are mapped, as revision 008 adds `lounge_id` | high, not executed | NotesApi.NoteColumnsMissingAsWritten | NoteService.NoteStore.CreateNote |
| alembic/versions/010_add_public_chatbot_tables.py:12-13 | revision 010's parent is '009', but revision 009's id is '009_add_lounge_resources'; revision 012's parent is '011_add_rag_to_public_chatbot', but 011's id is '011' | `alembic upgrade head` finds no revision named '009' | each revision names its predecessor's id | high, not executed | AlembicRevisions.ChainAsWrittenBroken | AlembicRevisions.ChainLinear |
| app/api/v1/admin.py:348-351 | the revenue report steps back in 30-day windows and labels each by the month its start falls in | two windows ending 1 March 1970 both start in January and get the same label | one row per calendar month | medium, not executed | AdminApi.ReportAsWrittenRepeatsMonth | AdminApi.ReportByMonthSound |
| app/api/v1/admin.py:436-441 | the user export joins fields with commas without quoting | a user named "Doe, Jane" yields a line with one more field than the header | every field survives a CSV reader | high, not executed | AdminApi.ExportAsWrittenSplitsName | AdminApi.ExportRoundTrip |
| app/main.py:124-134 | no handler is registered for `AppException`, so it reaches the catch-all handler | a login with a wrong password is answered 500 | the exception's own status, 401 INVALID_CREDENTIALS | high, not executed | Exceptions.InvalidCredentialsIs500AsWritten | Exceptions.IntendedResponse |
| app/services/lounge_resource_service.py:208-219 | the delete calls `delete_file_by_path`, which FileService does not define, and the AttributeError is caught | deleting a resource with a file removes the resource row but keeps the file row and its stored object | the file row and object are removed as well | high, not executed | LoungeResourceService.ResourceStore.DeleteResourceAsWritten | LoungeResourceService.ResourceStore.DeleteResource |
| alembic/versions/004_normalize_enum_values.py:20 | the update guards with `role != LOWER(role)`, which a case-insensitive collation finds false | a stored role 'ADMIN' stays 'ADMIN' | every stored value is lowered | low, not executed | Migrations.CollationKeepsUpperCase | AlembicRevisions.Upgrade004Lowers |
| app/services/knowledge_base_service.py:331 | `_extract_text_from_document` calls `file_service.get_file_content`, which FileService does not define, and the outer `except` turns the AttributeError into None | uploading or reprocessing any text file records "Could not extract text from document", with no chunks and no embedding | the stored content is read and its text chunked | high, not executed | KnowledgeBaseService.ProcessingFailsAsWritten | KnowledgeBaseService.ProcessOutcome |
| app/services/knowledge_base_service.py:553 | `delete_document` calls `file_service.delete_file_by_path`, which FileService does not define, and the AttributeError is logged | deleting a document leaves its object in storage | the object is removed with the rows | high, not executed | KnowledgeBaseService.ObjectKeptAsWritten | KnowledgeBaseService.ObjectsAfterDocumentDelete |
| app/services/billing_service.py:605 | `create_lounge_checkout_session` reads `lounge.stripe_product_id`, which the Lounge class (app/db/models/lounge.py:25-47) does not map | any checkout of a paid lounge by a known user raises AttributeError | the three Stripe columns added by revision 007 are mapped and the checkout reaches Stripe | high, not executed | BillingService.LoungeCheckoutMapped | BillingService.CreateLoungeCheckoutSession |
| app/services/billing_service.py:1023 | `upgrade_lounge_subscription` reads `lounge.stripe_yearly_price_id`, which the Lounge class does not map | upgrading a monthly subscription to an existing lounge raises AttributeError | the column is mapped and the upgrade reaches Stripe when a yearly price exists | high, not executed | BillingService.UpgradeChecksMapped | BillingService.UpgradeRefusal |
| scripts/migrate_existing_lounges_to_stripe.py:55 | the script reads `lounge.stripe_product_id` outside its `try`, and the Lounge class does not map it | a table with one paid lounge makes the script raise with no results and nothing created | each paid lounge without a product gets one and is counted | high, not executed | MigrateLounges.TallyMapped | MigrateLounges.MigrateExistingPaidLounges |
| app/services/billing_service.py:320-336 | `handle_payment_succeeded` inserts the payment with `user_id=0`, but `payments.user_id` references `users.id`, and the IntegrityError is logged and swallowed | a `payment_intent.succeeded` event with a customer records no payment when no user has id 0 | the payment is recorded for the customer's user | high, not executed | BillingService.RecordPaymentAsWritten | BillingService.RecordPayment |
| app/services/public_chatbot_service.py:71 | `update_config` reads `settings.EMBEDDING_MODEL`, but config.py declares only `OPENAI_EMBEDDING_MODEL` and ignores unknown names; the AttributeError is logged after the vector is assigned | a prompt embedded successfully is committed with `embedding_model` still None on a new row, or naming the old model | the vector is stored with the model that made it | high, not executed | PublicChatbotService.EmbedAsWritten | PublicChatbotService.Embed |
| alembic/versions/006_add_reply_to_id_to_chat_messages.py:46 | the downgrade drops `ix_chat_messages_reply_to_id` before the foreign key it serves | after the upgrade, the first downgrade step meets InnoDB error 1553 and the downgrade stops | the key is dropped first, as revision 008 orders it, and the downgrade completes | medium, not executed | AlembicRevisions.Down006RefusedAsWritten | AlembicRevisions.RoundTrip006Fixed |
| alembic/versions/007_add_lounge_subscriptions.py:81 | the downgrade drops `ix_lounge_subscriptions_lounge_id`, the only index left serving the key on `lounge_id`, before dropping the table | after the upgrade, the third downgrade step meets InnoDB error 1553 and the downgrade stops | the table is dropped whole, its keys and indexes with it, and the downgrade completes | medium, not executed | AlembicRevisions.Down007RefusedAsWritten | AlembicRevisions.RoundTrip007Fixed |
| alembic/versions/009_add_lounge_resources.py:45 | the downgrade drops `ix_lounge_resources_lounge_id`, the only index serving the key on `lounge_id`, before dropping the table | after the upgrade, the first downgrade step meets InnoDB error 1553 and the downgrade stops | the table is dropped whole and the downgrade completes | medium, not executed | AlembicRevisions.Down009RefusedAsWritten | AlembicRevisions.RoundTrip009Fixed |
