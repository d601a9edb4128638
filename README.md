# HotProspects — a Dafny model of the prospect list, the QR payload and the reminder rule

HotProspects tracks prospective contacts. Each prospect has a name, an email
address and a contacted flag. The app shows them in three tabs: everyone,
contacted and uncontacted. Each tab can be sorted by name. A prospect is added
by scanning another user's QR code, whose text is the name, a newline, then the
email address. The "Me" screen builds that text for the user's own card. From
the list, the user can ask for a reminder to contact a prospect.

This project models the non-visual logic behind these features and proves its
properties:

- `strings.dfy` (module `Strings`): Swift's `<` on names as lexicographic order
  over characters, proved a strict total order. Foundation's
  `components(separatedBy:)` for a one-character separator, with `Join` as its
  inverse.
- `prospect_list.dfy` (module `ProspectList`): the `Prospect` record, the
  `FilterType` and `SortType` choices, the tab `Title`, and the
  `filteredProspects` and `sortedProspects` pipeline.
- `me_view.dfy` (module `MeView`): the default identity and the QR payload text.
- `scan.dfy` (module `ScanHandling`): decoding a scanned text, the store's `add`
  and the `handleScan` handler as a class method, plus the round trip between
  the payload and the decoder.
- `reminders.dfy` (module `Reminders`): the rule that decides whether a
  notification request is submitted, and the fields that request carries.
- `wrappers.dfy` (module `Wrappers`): `Option`.

Choices the code makes that a reader might not expect:

- "Most recent" sorting returns the filtered list unchanged. It is not reverse
  insertion order.
- The alphabetical sort is `sorted(by:)` with a strict `<`. No stability is
  claimed.
- The contacted flag a new record starts with is not visible in the modelled
  code. So `ProspectsScreen` takes it as a constant, `freshContacted`, rather
  than assuming `false`.
- `add` is specified by the multiset of people only. Append order is not
  assumed.

## Model

| member | source | states |
|---|---|---|
| `Strings.LessTotal` | HotProspects/ProspectsView.swift:140 | any two names are ordered by `<` one way or the other, or are equal |
| `Strings.LessTransitive` | HotProspects/ProspectsView.swift:140 | the name order `<` is transitive |
| `Strings.Components` | HotProspects/ProspectsView.swift:150 | splitting on the separator gives one more piece than there are separators (empty pieces kept); no piece contains the separator; joining the pieces back gives the text |
| `Strings.ComponentsOfJoin` | HotProspects/ProspectsView.swift:150 | splitting a join of separator-free pieces gives back exactly those pieces |
| `ProspectList.TitleIdentifiesFilter` | HotProspects/ProspectsView.swift:112-121 | the tab titles given by `Title` ("Everyone", "Contacted people", "Uncontacted people") are the same for two tabs exactly when their filters are the same |
| `ProspectList.Where` | HotProspects/ProspectsView.swift:128-130 | `filter` on the contacted flag keeps an order-preserving subsequence; every kept record has the flag; each record with the flag is kept as often as it occurs |
| `ProspectList.FilteredProspects` | HotProspects/ProspectsView.swift:123-132 | with no filter the list is `people` unchanged; otherwise it is an order-preserving subsequence of `people`; it holds exactly the people the filter keeps, with their multiplicities |
| `ProspectList.ContactedTabsPartition` | HotProspects/ProspectsView.swift:127-130 | the contacted and uncontacted tabs together hold every person exactly once: their multisets add up to `people`, and so do their lengths |
| `ProspectList.SortByName` | HotProspects/ProspectsView.swift:138-141 | the result is non-decreasing by name for every pair of positions, and is a permutation of the input |
| `ProspectList.SortedProspects` | HotProspects/ProspectsView.swift:134-145 | sorts `none` and `mostRecent` return the filtered list unchanged; `alphabetical` returns it non-decreasing by name; every sort keeps its multiset |
| `ProspectList.SortedProspectsMembers` | HotProspects/ProspectsView.swift:134-145 | everyone displayed passes the tab's filter and is in `people`; everyone who passes appears as often as in `people`; sorting keeps the filtered length |
| `ProspectList.AlphabeticalExample` | HotProspects/ProspectsView.swift:138-141 | the names "Bob", "alice", "Bob" sort as "Bob", "Bob", "alice": comparison is case-sensitive |
| `MeView.Payload` | HotProspects/MeView.swift:51 | the payload is the name, one newline, then the email address: its length is one more than both fields together, and its newline count is one more than theirs |
| `MeView.DefaultPayload` | HotProspects/MeView.swift:12-13 | the initial payload is "Anonymous", a newline, "you@yoursite.com" |
| `ScanHandling.DecodeScan` | HotProspects/ProspectsView.swift:150-154 | a scanned text is accepted exactly when it contains one newline; then the text is name, newline, email, and neither field contains a newline |
| `ScanHandling.Prospects.Add` | HotProspects/ProspectsView.swift:155 | the store gains exactly the one given record and loses nothing |
| `ScanHandling.ProspectsScreen.constructor` | HotProspects/ProspectsView.swift:107-110 | a new tab keeps its filter, starts with sort `none`, and the scanner sheet starts closed |
| `ScanHandling.ProspectsScreen.Displayed` | HotProspects/ProspectsView.swift:134-145 | the list a tab shows holds exactly the store's people that pass its filter, as often as they occur; it is the filtered list itself unless the sort is alphabetical, and then it is non-decreasing by name |
| `ScanHandling.ProspectsScreen.HandleScan` | HotProspects/ProspectsView.swift:147-161 | a text with one newline adds one prospect whose name is the text before the newline and whose email is the text after it, and closes the scanner sheet; any other text returns early, adding nothing and leaving the sheet as it was; a scanner failure adds nothing and closes the sheet |
| `ScanHandling.PayloadRoundTrip` | HotProspects/MeView.swift:51 | if neither field contains a newline, the payload splits into exactly `[name, emailAddress]` and the scanner recovers both fields |
| `ScanHandling.PayloadWithNewlineRejected` | HotProspects/ProspectsView.swift:150-151 | a newline inside either field makes the payload split into more than two pieces, and the scanner rejects it |
| `ScanHandling.DefaultPayloadDecodes` | HotProspects/MeView.swift:12-13 | the initial payload decodes to the default name and email |
| `ScanHandling.DecodeTrailingNewline` | HotProspects/ProspectsView.swift:150-154 | "a\n" is accepted with name "a" and an empty email |
| `ScanHandling.DecodeOneLineRejected` | HotProspects/ProspectsView.swift:151 | a text without a newline is rejected |
| `ScanHandling.DecodeThreeLinesRejected` | HotProspects/ProspectsView.swift:151 | a text with two newlines is rejected |
| `Reminders.ReminderRequest` | HotProspects/ProspectsView.swift:166-177 | the request's title is "Contact " and the prospect's name, its subtitle is the email address, it uses the default sound, and its trigger fires at hour 9 without repeating |
| `Reminders.AfterSettings` | HotProspects/ProspectsView.swift:181-184 | after reading the settings, a request is submitted exactly when the status is authorized, and it is the prospect's `ReminderRequest`; any other status leads to asking for authorization |
| `Reminders.AfterAuthorization` | HotProspects/ProspectsView.swift:185-190 | after asking, a request is submitted exactly when permission is granted, and it is the prospect's `ReminderRequest`; on denial nothing is submitted |
| `Reminders.AddNotification` | HotProspects/ProspectsView.swift:163-195 | a flow always ends submitted or not submitted; it submits exactly when the status is authorized or the user grants permission; the request's title is "Contact " and the name, its subtitle is the email, it uses the default sound, and it fires at hour 9 without repeating |
| `Reminders.AuthorizedIgnoresAnswer` | HotProspects/ProspectsView.swift:181-183 | when already authorized, the answer to a permission prompt has no effect |
| `Reminders.RequestIgnoresContacted` | HotProspects/ProspectsView.swift:166-170 | the reminder depends only on the prospect's name and email address |

## Left out

- SwiftUI presentation: the list layout, swipe actions, toolbar, sort dialog, sheets and previews are not modelled. They only bind the modelled values to views.
- QR rendering: turning the payload into an image is not modelled. It uses CoreImage's QR generator and falls back to a placeholder image when generation fails. Photo saving is not modelled either.
- Camera scanning: the scanner library is not modelled. Only the outcome it delivers is, as `ScanOutcome`: the scanned text, or an error. The failure branch only logs a message.
- Notification plumbing: the asynchronous callbacks, the UUID identifier and the calendar's choice of the actual fire date are not modelled. The model also leaves out the error value passed to the authorization callback, which the code ignores, and any failure of `center.add`, which the code does not observe. Each call is independent: two calls submit two requests.
- Store internals: the source of the `Prospects` and `Prospect` classes is not shown. The model stands in for them with the `Prospect` value record and a `Prospects` store whose `Add` is specified only by the multiset of people. Persistence, `toggle` and the default contacted flag are not modelled.
- Prospect identity: records compare by value, not by object identity, so two prospects with the same name, email and flag are indistinguishable in the model.
- ScanHandling.Prospects.Add: states only that the multiset of people gains the record. It does not say where the record goes, because the store's code is not part of this model.
- Strings.Less: compares characters by code point. Swift's `String` comparison works on Unicode canonical equivalence, which the model does not capture.
- Documents directory: looking up the documents directory is filesystem I/O with no logic.
