# HangOut — a Dafny model of its client rules and service handlers

HangOut is an app for finding places to go out. Users browse establishments (*establecimientos*), their offers (*ofertas*), events (*eventos*) and reviews, and they organise activities (*actividades*). Establishment administrators create and edit their venues, offers and events. The Android client is a set of Jetpack Compose screens that talk to a Flask backend through Retrofit. This project models the behaviour those screens and two of the Flask services decide on their own:

- **Request bodies.** What a create or edit screen sends: which fields are required and how they are trimmed or normalised. For the edit screens, also which keys enter a partial update.
- **Decoding.** How a screen turns an org.json tree or a Gson record into what it shows: profile, activity and event lists, the administrator's establishments, review ids, and the user id taken from a JWT.
- **Small decisions.** The login outcome, bottom-bar visibility and tab selection, star ratings, the "more events / more offers" rotation, image URLs with the emulator host rewrite, and date and time texts.
- **Service handlers.** How `establecimiento_service.py` and `administrador_establecimientos_service.py` normalise a request and map exceptions and forwarded errors to HTTP replies.

The model follows the source's own form:

- A screen's `remember`ed state is a Dafny `class` whose methods (`Load`, `Save`, `Submit`, `Toggle…`) change it. Each method is proved against a specification function.
- Decoders and text helpers are functions, each with a reference definition and lemmas.
- Each loop in the source (the org.json decoders, the CSRF cookie scan, the `ambiente` flattening in the admin service) is a `method` with invariants, proved equal to its reference function.

The network, Gson, `JSONObject(text)`, `SimpleDateFormat`, `Uri.decode`, Base64 and `photos.save` are function parameters or given outcomes. A call's result is `Http.Call`: an answer with its status code and optional body, or an exception.

Shared modules:

| module | what it holds |
|---|---|
| `Text` | Kotlin and Python string operations |
| `Json` | the org.json tree and its `opt*` accessors |
| `Models` | the records and the ambiente catalogue |
| `Urls` | `buildImageUrl` and `emulatorize` |
| `Dates` | the date-pattern loop |
| `Forms` | repeated validators and picker callbacks |
| `Http` and `Screen` | call results, request bodies, save verdicts |
| `Ambientes` | normalisation, selection toggling, the `,` join |
| `MoreItems` | the detail-screen rotation |
| `Service` | what the two Flask services share |

Every other module models one source file.

## Model

| member | source | states |
|---|---|---|
| Urls.EmulatorizeIdentity | AndroidStudio/app/src/main/java/com/example/hangout/ui/screens/admin/CrearEventoScreen.kt:284 | a text without the loopback host comes out of `emulatorize` unchanged |
| Urls.EmulatorizeRemovesLoopback | AndroidStudio/app/src/main/java/com/example/hangout/ui/screens/admin/CrearEventoScreen.kt:284 | after `replace("127.0.0.1", "10.0.2.2")` no loopback host is left anywhere in the text |
| Urls.EmulatorizeIdempotent | AndroidStudio/app/src/main/java/com/example/hangout/ui/screens/admin/CrearEventoScreen.kt:284 | emulatorising twice gives the same text as emulatorising once |
| Urls.EmulatorizeBase | AndroidStudio/app/src/main/java/com/example/hangout/ui/screens/user/InicioUsuarioScreen.kt:300-302 | the server base URL becomes the emulator base URL and the path after it is rewritten on its own |
| Urls.EmulatedNoLoopback | AndroidStudio/app/src/main/java/com/example/hangout/ui/screens/user/DatosOfertaScreen.kt:217-222 | every emulated copy of `buildImageUrl` returns a URL without the loopback host, whatever the path |
| Urls.SlashJoined | AndroidStudio/app/src/main/java/com/example/hangout/ui/screens/admin/CrearOfertaScreen.kt:182 | the base is followed by exactly one `/` whether or not the path starts with one |
| Urls.PlainImageUrl | AndroidStudio/app/src/main/java/com/example/hangout/ui/screens/admin/CrearOfertaScreen.kt:179-183 | unemulated variant: a null or blank path gives the default file under `/_uploads/photos/`, an `http` path is returned as it is, any other path is joined to the base with one `/` |
| Urls.EmulatedImageUrl | AndroidStudio/app/src/main/java/com/example/hangout/ui/screens/user/InicioUsuarioScreen.kt:297-302 | emulated variant with a default: a null or blank path gives the default file on the emulator host, an `http` path is emulatorised, any other path is appended to the emulator base as it is |
| Urls.EmulatedDefault | AndroidStudio/app/src/main/java/com/example/hangout/ui/screens/user/DatosEventoScreen.kt:293-294 | a null or blank path gives the emulator host's photos directory and the default file |
| Urls.EmulatedJoined | AndroidStudio/app/src/main/java/com/example/hangout/ui/screens/user/DatosEventoScreen.kt:293-297 | a non-blank, non-`http` path is appended to the emulator base with no `/` inserted |
| Urls.EmulatedPhotos | AndroidStudio/app/src/main/java/com/example/hangout/ui/screens/user/DatosEstablecimientoScreen.kt:380-381 | the default picture URL emulatorises to the emulator base, the photos directory and the file |
| Urls.EmulatedSlashImageUrl | AndroidStudio/app/src/main/java/com/example/hangout/ui/screens/admin/CrearEventoScreen.kt:279-284 | variant without a default: an `http` path is emulatorised, any other path follows the emulator base after exactly one `/` |
| Urls.Emulatorize | AndroidStudio/app/src/main/java/com/example/hangout/ui/screens/admin/CrearEventoScreen.kt:284 | the rewrite never lengthens the text and gives the empty text only for the empty text |
| Dates.FechaValue | AndroidStudio/app/src/main/java/com/example/hangout/models/Evento.kt:19-22 | a Gson-decoded `FechaWrapper` reaches an `Any?` parameter as an object that is neither a String nor a Map |
| Dates.DateEntry | AndroidStudio/app/src/main/java/com/example/hangout/ui/screens/admin/EditarEventoScreen.kt:259 | a map gives its `$date` string; only a null `$date` falls back to `date`; a non-string value gives null |
| Dates.TryPatterns | AndroidStudio/app/src/main/java/com/example/hangout/ui/screens/admin/EditarEventoScreen.kt:242-256 | the loop over the patterns answers with the first pattern that parses, or null |
| Dates.FirstParseSpec | AndroidStudio/app/src/main/java/com/example/hangout/ui/screens/admin/EditarEventoScreen.kt:236-256 | the loop succeeds exactly when some pattern parses, and then with the earliest such pattern, every earlier one having failed |
| Ambientes.NormCharFixed | AndroidStudio/app/src/main/java/com/example/hangout/ui/screens/admin/EditarEstablecimientoScreen.kt:225-228 | a character that went through lowercasing and accent stripping is left alone by both, and whitespace stays whitespace |
| Ambientes.TrimLowercase | AndroidStudio/app/src/main/java/com/example/hangout/ui/screens/admin/EditarEstablecimientoScreen.kt:226 | `lowercase().trim()` equals trimming first, then lowercasing |
| Ambientes.NormalizeTextIsKeyOfTrim | AndroidStudio/app/src/main/java/com/example/hangout/ui/screens/user/EditarPerfilScreen.kt:74-77 | the admin screens' `normalizeText` equals the profile screen's `normalizeKey` of the trimmed text |
| Ambientes.NormalizedCutEnds | AndroidStudio/app/src/main/java/com/example/hangout/ui/screens/admin/EditarEstablecimientoScreen.kt:225-228 | a normalised cut has no whitespace at either end |
| Ambientes.NormalizedCutFixed | AndroidStudio/app/src/main/java/com/example/hangout/ui/screens/admin/EditarEstablecimientoScreen.kt:225-228 | a normalised cut has no character that lowercasing or accent stripping would change |
| Ambientes.NormalizeTextCut | AndroidStudio/app/src/main/java/com/example/hangout/ui/screens/admin/EditarEstablecimientoScreen.kt:225-228 | `normalizeText(s)` is a cut of `s` normalised character by character |
| Ambientes.NormalizeTextSpec | AndroidStudio/app/src/main/java/com/example/hangout/ui/screens/admin/EditarEstablecimientoScreen.kt:225-228 | the result is the trimmed text, lowercased and unaccented, with no whitespace at its ends |
| Ambientes.NormalizeTextIdempotent | AndroidStudio/app/src/main/java/com/example/hangout/ui/screens/admin/EditarEstablecimientoScreen.kt:225-228 | normalising twice is normalising once |
| Ambientes.CatalogueNoDup | AndroidStudio/app/src/main/java/com/example/hangout/data/AmbientesProvider.kt:7-20 | the catalogue lists each ambiente once |
| Ambientes.Remove | AndroidStudio/app/src/main/java/com/example/hangout/ui/screens/admin/CrearEstablecimientoScreen.kt:136 | `set - x` keeps every other member and drops `x` |
| Ambientes.RemoveAbsent | AndroidStudio/app/src/main/java/com/example/hangout/ui/screens/admin/CrearEstablecimientoScreen.kt:136 | removing a member that is not there changes nothing |
| Ambientes.RemoveLast | AndroidStudio/app/src/main/java/com/example/hangout/ui/screens/admin/CrearEstablecimientoScreen.kt:136 | removing the member just appended gives back the set before it |
| Ambientes.ConsNoDup | AndroidStudio/app/src/main/java/com/example/hangout/ui/screens/admin/CrearEstablecimientoScreen.kt:59 | a list has no duplicates exactly when its head is not in its tail and its tail has none |
| Ambientes.RemoveNoDup | AndroidStudio/app/src/main/java/com/example/hangout/ui/screens/admin/CrearEstablecimientoScreen.kt:136 | removing keeps a selection free of duplicates |
| Ambientes.ToggleSpec | AndroidStudio/app/src/main/java/com/example/hangout/ui/screens/admin/CrearEstablecimientoScreen.kt:130-136 | a click flips the clicked ambiente's membership only and keeps the selection free of duplicates |
| Ambientes.ToggleTwice | AndroidStudio/app/src/main/java/com/example/hangout/ui/screens/admin/CrearEstablecimientoScreen.kt:130-136 | two clicks on the same ambiente give the same members back, and the same order when it was not selected |
| Ambientes.SelectByKey | AndroidStudio/app/src/main/java/com/example/hangout/ui/screens/admin/EditarEstablecimientoScreen.kt:54 | `all.filter { key(it.name) in keys }` keeps exactly the ambientes whose key is stored |
| Ambientes.SelectByKeyNoDup | AndroidStudio/app/src/main/java/com/example/hangout/ui/screens/admin/EditarEstablecimientoScreen.kt:54 | filtering the catalogue gives a selection without duplicates |
| Ambientes.NamesOf | AndroidStudio/app/src/main/java/com/example/hangout/ui/screens/admin/EditarEstablecimientoScreen.kt:131 | one normalised name per selected ambiente, in selection order |
| Ambientes.CatalogueHasNoComma | AndroidStudio/app/src/main/java/com/example/hangout/data/AmbientesProvider.kt:7-20 | no catalogue name holds a comma |
| Ambientes.NormalizeTextNoComma | AndroidStudio/app/src/main/java/com/example/hangout/ui/screens/admin/CrearEstablecimientoScreen.kt:233-236 | normalising never creates a comma |
| Ambientes.AmbienteFieldSplits | AndroidStudio/app/src/main/java/com/example/hangout/ui/screens/admin/CrearEstablecimientoScreen.kt:173-175 | splitting the sent `,`-joined field on commas gives the normalised names back, for any non-empty selection from the catalogue |
| Forms.MatchesIff | AndroidStudio/app/src/main/java/com/example/hangout/ui/screens/admin/EditarEventoScreen.kt:219 | an anchored pattern of `\d` and literal characters matches exactly the strings of its length whose every character fits the token at its position |
| Forms.IsYyyyMmDdIff | AndroidStudio/app/src/main/java/com/example/hangout/ui/screens/admin/EditarEventoScreen.kt:218-219 | the date check accepts exactly ten trimmed characters `dddd-dd-dd`, with no range check on month or day |
| Forms.HmsPatternIff | AndroidStudio/app/src/main/java/com/example/hangout/ui/screens/admin/EditarEventoScreen.kt:224 | `^\d{2}:\d{2}:\d{2}$` accepts exactly eight characters `dd:dd:dd` |
| Forms.HmPatternIff | AndroidStudio/app/src/main/java/com/example/hangout/ui/screens/admin/EditarEventoScreen.kt:225 | `^\d{2}:\d{2}$` accepts exactly five characters `dd:dd` |
| Forms.EnsureSecondsSpec | AndroidStudio/app/src/main/java/com/example/hangout/ui/screens/admin/EditarEventoScreen.kt:221-228 | the result is trimmed; `HH:MM` gains `:00`, `HH:MM:SS` stays, any other text comes back trimmed and unchanged |
| Forms.EnsureSecondsIdempotent | AndroidStudio/app/src/main/java/com/example/hangout/ui/screens/admin/CrearEventoScreen.kt:270-277 | completing the seconds twice gives what completing them once gives |
| Forms.Pad2 | AndroidStudio/app/src/main/java/com/example/hangout/ui/screens/admin/CrearEventoScreen.kt:85-86 | `padStart(2, '0')` of a number below 100 is two digits that read back as the number |
| Forms.FourDigits | AndroidStudio/app/src/main/java/com/example/hangout/ui/screens/admin/CrearEventoScreen.kt:87 | a year in 1000..9999 is written with four digits |
| Forms.DateSlices | AndroidStudio/app/src/main/java/com/example/hangout/ui/screens/admin/CrearEventoScreen.kt:87 | in `"$y-$mm-$dd"` with four-, two- and two-character parts, the year, month and day sit at 0..4, 5..7 and 8..10 with dashes at 4 and 7 |
| Forms.PickedDateFields | AndroidStudio/app/src/main/java/com/example/hangout/ui/screens/admin/CrearEventoScreen.kt:82-89 | a picked date reads back as the picked year, the one-based month and the day |
| Forms.PickedDateValid | AndroidStudio/app/src/main/java/com/example/hangout/ui/screens/user/CrearActividadScreen.kt:50-56 | every date the picker writes is already trimmed and passes the edit screen's date check |
| Forms.PickedTimeValid | AndroidStudio/app/src/main/java/com/example/hangout/ui/screens/admin/CrearEventoScreen.kt:94-100 | every time the picker writes is a full `HH:MM:SS`, which completing the seconds leaves alone |
| Forms.FormatReviewsSpec | AndroidStudio/app/src/main/java/com/example/hangout/ui/screens/user/InicioUsuarioScreen.kt:305 | "200+" appears exactly for counts of 200 or more; a count in 0..199 is shown in decimal |
| Forms.CoerceIn | AndroidStudio/app/src/main/java/com/example/hangout/ui/screens/user/CrearReviewScreen.kt:47 | the result lies in the bounds, equals the input inside them and the nearer bound outside them |
| Forms.StarRow | AndroidStudio/app/src/main/java/com/example/hangout/ui/screens/user/CrearReviewScreen.kt:83-84 | the rating row has five stars |
| Forms.FilledPrefix | AndroidStudio/app/src/main/java/com/example/hangout/ui/screens/user/DatosEstablecimientoScreen.kt:363-364 | a row whose first `n` stars are filled and the rest empty counts `n` filled stars |
| Forms.StarRowCount | AndroidStudio/app/src/main/java/com/example/hangout/ui/screens/user/DatosEstablecimientoScreen.kt:363-364 | for a rating in 0..5 exactly that many stars are filled, and they are the first ones |
| Http.PrependEmpty | AndroidStudio/app/src/main/java/com/example/hangout/ui/screens/user/DatosEstablecimientoScreen.kt:85 | a list still empty before the loop adds nothing in front of what the loop collects |
| Http.PrependOne | AndroidStudio/app/src/main/java/com/example/hangout/ui/screens/user/DatosEstablecimientoScreen.kt:88 | adding one fetched body to the collected list and then the rest equals collecting it as the first of the rest |
| Http.CollectFetched | AndroidStudio/app/src/main/java/com/example/hangout/ui/screens/user/DatosEstablecimientoScreen.kt:85-90 | the fetch loop over the ids ends with the list the reference definition of the fetched list gives, or with nothing when a call throws |
| Http.FetchedSpec | AndroidStudio/app/src/main/java/com/example/hangout/ui/screens/user/DatosEstablecimientoScreen.kt:84-106 | the list is abandoned exactly when some call throws; otherwise it is no longer than the ids and holds only delivered bodies, and all of them in id order when every call delivers |
| Http.CreatedRoute | AndroidStudio/app/src/main/java/com/example/hangout/ui/screens/admin/CrearEstablecimientoScreen.kt:197-210 | the screen navigates exactly when the answer is a 2xx with a body whose id is not blank, and then to the route prefix followed by that id |
| Screen.PopOnSuccess | AndroidStudio/app/src/main/java/com/example/hangout/ui/screens/admin/EditarOfertaScreen.kt:89-97 | a 2xx answer pops back and sets the refresh flag on the previous entry; a failure status or an exception stays on the screen |
| MoreItems.SavedStateHandle.constructor | AndroidStudio/app/src/main/java/com/example/hangout/ui/screens/user/DatosEventoScreen.kt:42 | the handle starts with the given string values |
| MoreItems.NombreOrDefault | AndroidStudio/app/src/main/java/com/example/hangout/ui/screens/user/DatosEventoScreen.kt:45-46 | the establishment name is the handed value, or "Establecimiento" when none was handed |
| MoreItems.OthersFrom | AndroidStudio/app/src/main/java/com/example/hangout/ui/screens/user/DatosEventoScreen.kt:50-53 | a null or blank list text gives no other records; any other text is decoded |
| MoreItems.Arrival | AndroidStudio/app/src/main/java/com/example/hangout/ui/screens/user/DatosOfertaScreen.kt:35-46 | a missing key shows no record, no other records or the default name, each on its own |
| MoreItems.Rotated | AndroidStudio/app/src/main/java/com/example/hangout/ui/screens/user/DatosEventoScreen.kt:232-235 | the new strip holds exactly the other records except the chosen one, plus the current record, which goes last |
| MoreItems.RemoveSnoc | AndroidStudio/app/src/main/java/com/example/hangout/ui/screens/user/DatosEventoScreen.kt:233 | filtering a list grown by one element filters the old list and keeps the new element unless it is the chosen one |
| MoreItems.RotateOthers | AndroidStudio/app/src/main/java/com/example/hangout/ui/screens/user/DatosOfertaScreen.kt:155-158 | the loop builds the rotated strip |
| MoreItems.Choose | AndroidStudio/app/src/main/java/com/example/hangout/ui/screens/user/DatosEventoScreen.kt:230-241 | a click writes the chosen record, the rotated strip and the name into the previous entry's handle, and changes nothing without a previous entry |
| MoreItems.ChooseArrives | AndroidStudio/app/src/main/java/com/example/hangout/ui/screens/user/DatosOfertaScreen.kt:154-164 | when the JSON text round-trips, the reopened screen shows the chosen record, the rotated strip and the same name |
| MoreItems.RemoveMultiset | AndroidStudio/app/src/main/java/com/example/hangout/ui/screens/user/DatosOfertaScreen.kt:156 | filtering removes every copy of the chosen record and keeps every other record as often as before |
| MoreItems.RotatedMultiset | AndroidStudio/app/src/main/java/com/example/hangout/ui/screens/user/DatosEventoScreen.kt:232-235 | only the chosen record leaves the strip; every other record stays as often as before, and the current one is added |
| MoreItems.RotationKeepsPool | AndroidStudio/app/src/main/java/com/example/hangout/ui/screens/user/DatosEventoScreen.kt:232-240 | with the chosen record listed once and a record shown, the strip keeps its length, the shown record goes last, and shown record plus strip hold the same records as before |
| MoreItems.ScreenKeysDistinct | AndroidStudio/app/src/main/java/com/example/hangout/ui/screens/user/DatosOfertaScreen.kt:161-163 | each screen's three handle keys differ, so the three writes do not overwrite each other |
| AdminDatosEstablecimientoScreen.StrArray | AndroidStudio/app/src/main/java/com/example/hangout/ui/screens/admin/DatosEstablecimientoScreen.kt:471-473 | `JSONArray(list)` holds the strings of the list, one per position |
| AdminDatosEstablecimientoScreen.EstToJsonAt | AndroidStudio/app/src/main/java/com/example/hangout/ui/screens/admin/DatosEstablecimientoScreen.kt:465-479 | reading a key of the built object gives the value put under it first |
| AdminDatosEstablecimientoScreen.StrArrayText | AndroidStudio/app/src/main/java/com/example/hangout/ui/screens/admin/DatosEstablecimientoScreen.kt:424 | `toStringList` of a built string array gives back the list |
| AdminDatosEstablecimientoScreen.ViewNombre | AndroidStudio/app/src/main/java/com/example/hangout/ui/screens/admin/DatosEstablecimientoScreen.kt:144 | the screen's name reads back as the record's name |
| AdminDatosEstablecimientoScreen.ViewImagen | AndroidStudio/app/src/main/java/com/example/hangout/ui/screens/admin/DatosEstablecimientoScreen.kt:145 | the header image path reads back as the record's image path, not the default |
| AdminDatosEstablecimientoScreen.ViewId | AndroidStudio/app/src/main/java/com/example/hangout/ui/screens/admin/DatosEstablecimientoScreen.kt:152 | the id under `_id.$oid` reads back as the record's id |
| AdminDatosEstablecimientoScreen.ViewAmbiente | AndroidStudio/app/src/main/java/com/example/hangout/ui/screens/admin/DatosEstablecimientoScreen.kt:146 | the ambientes read back as the record's |
| AdminDatosEstablecimientoScreen.ViewOfertas | AndroidStudio/app/src/main/java/com/example/hangout/ui/screens/admin/DatosEstablecimientoScreen.kt:148 | the offer ids read back as the record's |
| AdminDatosEstablecimientoScreen.ViewEventos | AndroidStudio/app/src/main/java/com/example/hangout/ui/screens/admin/DatosEstablecimientoScreen.kt:147 | the event ids read back as the record's |
| AdminDatosEstablecimientoScreen.ViewRating | AndroidStudio/app/src/main/java/com/example/hangout/ui/screens/admin/DatosEstablecimientoScreen.kt:149 | a fetched record shows a rating of 0 |
| AdminDatosEstablecimientoScreen.ViewNumeroReviews | AndroidStudio/app/src/main/java/com/example/hangout/ui/screens/admin/DatosEstablecimientoScreen.kt:150 | the review count is the number of the record's review ids |
| AdminDatosEstablecimientoScreen.ViewReviews | AndroidStudio/app/src/main/java/com/example/hangout/ui/screens/admin/DatosEstablecimientoScreen.kt:151 | a fetched record shows no reviews |
| AdminDatosEstablecimientoScreen.ViewOfEstToJson | AndroidStudio/app/src/main/java/com/example/hangout/ui/screens/admin/DatosEstablecimientoScreen.kt:144-152 | the whole view of a fetched record: name, id, ambientes, offer and event ids, image, rating 0, review count, no reviews |
| AdminDatosEstablecimientoScreen.RatingStarsSpec | AndroidStudio/app/src/main/java/com/example/hangout/ui/screens/admin/DatosEstablecimientoScreen.kt:415-422 | a rating in 0..5 draws five stars, as many filled as its whole part |
| AdminDatosEstablecimientoScreen.DividerAfterSpec | AndroidStudio/app/src/main/java/com/example/hangout/ui/screens/admin/DatosEstablecimientoScreen.kt:290 | a divider follows every review but the last |
| AdminDatosEstablecimientoScreen.PrettyCapSpec | AndroidStudio/app/src/main/java/com/example/hangout/ui/screens/admin/DatosEstablecimientoScreen.kt:447 | only a lower-case first character is changed, to its title case; the rest of the text stays |
| AdminDatosEstablecimientoScreen.BuildAmbienteLookup | AndroidStudio/app/src/main/java/com/example/hangout/ui/screens/admin/DatosEstablecimientoScreen.kt:454-463 | the loop builds the lookup the reference definition gives |
| AdminDatosEstablecimientoScreen.LookupOfDomain | AndroidStudio/app/src/main/java/com/example/hangout/ui/screens/admin/DatosEstablecimientoScreen.kt:454-463 | a key is in the lookup exactly when some catalogue entry normalises to it |
| AdminDatosEstablecimientoScreen.LookupOfSpec | AndroidStudio/app/src/main/java/com/example/hangout/ui/screens/admin/DatosEstablecimientoScreen.kt:459-460 | each key holds the name and icon of the last catalogue entry that normalises to it |
| AdminDatosEstablecimientoScreen.ChipLabelSpec | AndroidStudio/app/src/main/java/com/example/hangout/ui/screens/admin/DatosEstablecimientoScreen.kt:226 | a stored ambiente that matches a catalogue entry is labelled with the entry's name, any other with its `prettyCap` |
| AdminDatosEstablecimientoScreen.CardTargetShifted | AndroidStudio/app/src/main/java/com/example/hangout/ui/screens/admin/DatosEstablecimientoScreen.kt:247-250 | with a failed fetch before it, the first card shows offer "b" but opens "a" |
| AdminDatosEstablecimientoScreen.ShownWithIds | AndroidStudio/app/src/main/java/com/example/hangout/ui/screens/admin/DatosEstablecimientoScreen.kt:165-170 | every kept pair is a delivered call's id with its body |
| AdminDatosEstablecimientoScreen.ShownWithIdsAgrees | AndroidStudio/app/src/main/java/com/example/hangout/ui/screens/admin/DatosEstablecimientoScreen.kt:165-170 | the pairs follow the drawn row item by item |
| AdminDatosEstablecimientoScreen.CardTargetFixedSpec | AndroidStudio/app/src/main/java/com/example/hangout/ui/screens/admin/DatosEstablecimientoScreen.kt:247-250 | with the ids kept beside the bodies, every card opens the id whose fetch delivered the item it shows |
| AdminDatosEstablecimientoScreen.AdminDatosEstablecimiento.constructor | AndroidStudio/app/src/main/java/com/example/hangout/ui/screens/admin/DatosEstablecimientoScreen.kt:70-79 | the screen starts from the decoded, trimmed argument, with no object, no refresh and no dialog |
| AdminDatosEstablecimientoScreen.AdminDatosEstablecimiento.Open | AndroidStudio/app/src/main/java/com/example/hangout/ui/screens/admin/DatosEstablecimientoScreen.kt:81-91 | inline JSON is parsed; a non-blank id is fetched and a delivered record becomes its JSON view; otherwise the object stays. Nothing is caught: the screen crashes exactly when `JSONObject` rejects the inline text or the fetch throws |
| AdminDatosEstablecimientoScreen.AdminDatosEstablecimiento.Refresh | AndroidStudio/app/src/main/java/com/example/hangout/ui/screens/admin/DatosEstablecimientoScreen.kt:93-110 | with the refresh flag up, the id is fetched again and a delivered record replaces the object, and the flag goes down; a fetch that throws crashes the screen before the flag is put down, so the flag stays up exactly when it crashes |
| AdminDatosEstablecimientoScreen.AdminDatosEstablecimiento.ConfirmDelete | AndroidStudio/app/src/main/java/com/example/hangout/ui/screens/admin/DatosEstablecimientoScreen.kt:304-312 | the dialog closes; the shown id is deleted exactly when an object is shown and its id is not blank |
| AdminDatosEstablecimientoScreen.RefreshIdOfFetched | AndroidStudio/app/src/main/java/com/example/hangout/ui/screens/admin/DatosEstablecimientoScreen.kt:96-97 | a refresh after a fetched record asks for that record's id again |
| AdminDatosEstablecimientoScreen.AfterDelete | AndroidStudio/app/src/main/java/com/example/hangout/ui/screens/admin/DatosEstablecimientoScreen.kt:313-319 | a 2xx answer pops back without a flag; anything else stays |
| AdministradorEstablecimientosService.CrearAdministrador | api/src/services/administrador_establecimientos_service.py:14-49 | the schema receives the data with only `imagen_url` set (the stored upload or `default.png`); a load or model failure is mapped, a success answers 200 with the inserted record |
| AdministradorEstablecimientosService.CreateAdminFailureReply | api/src/services/administrador_establecimientos_service.py:41-49 | a validation error answers its first message with 400, a `ValueError` 400 with its text, anything else 500 with its text |
| AdministradorEstablecimientosService.CreateAdminFailureStatus | api/src/services/administrador_establecimientos_service.py:46-47 | a failure is a 400 exactly for a `ValueError` or a validation error with a first message, where the establishment creation answers a `ValueError` with 500; everything else is a 500 |
| AdministradorEstablecimientosService.EliminarAdministrador | api/src/services/administrador_establecimientos_service.py:53-67 | an identity that is not an object escapes before the `try`; otherwise the delete answers 200, 404 exactly for a `ValueError`, and 500 for any other failure |
| AdministradorEstablecimientosService.FirstValue | api/src/services/administrador_establecimientos_service.py:118 | the value found was sent under the name; none is found exactly when no field has the name |
| AdministradorEstablecimientosService.GetList | api/src/services/administrador_establecimientos_service.py:119 | every value sent under the name in order; empty exactly when the name is absent, and led by the first value |
| AdministradorEstablecimientosService.FlatDictGet | api/src/services/administrador_establecimientos_service.py:118 | `to_dict(flat=True)` keeps the first value of each name |
| AdministradorEstablecimientosService.FirstValueSnoc | api/src/services/administrador_establecimientos_service.py:118 | a field added at the end of the form changes a name's first value only when the name was absent |
| AdministradorEstablecimientosService.ForwardedFormFields | api/src/services/administrador_establecimientos_service.py:117-122 | the forwarded form carries the identity as `id_administrador` whatever the client sent, the comma-join of every `ambiente` value, and each other name's first value |
| AdministradorEstablecimientosService.AmbienteReachesEstablecimientos | api/src/services/administrador_establecimientos_service.py:119-121 | repeated `ambiente` values without commas reach the establishments service as one string that it splits back into the same list |
| AdministradorEstablecimientosService.ForwardedJson | api/src/services/administrador_establecimientos_service.py:131-132 | a missing or false body becomes `{"id_administrador": identity}`; an object keeps its members with the identity set; any other true value makes the assignment raise |
| AdministradorEstablecimientosService.ForwardedImage | api/src/services/administrador_establecimientos_service.py:124-127 | the image is forwarded exactly when an upload with a non-empty filename came |
| AdministradorEstablecimientosService.ForwardReply | api/src/services/administrador_establecimientos_service.py:135-145 | a forwarded 4xx or 5xx is wrapped with the backend's JSON (or its text as `message`) under its own status; a transport failure or a non-JSON answer is a 500 general error; otherwise the backend's JSON and status pass through |
| AdministradorEstablecimientosService.CrearEstablecimiento | api/src/services/administrador_establecimientos_service.py:109-145 | a form request forwards the flattened form with the joined ambientes, the identity and the named image; any other request forwards its JSON body with the identity; a true non-object body is a 500 general error |
| EstablecimientoService.Strs | api/src/services/establecimiento_service.py:40 | the strings of a list become JSON strings, one per position |
| EstablecimientoService.NormalizeAmbiente | api/src/services/establecimiento_service.py:38-42 | a true string is split on commas, any other true value is kept, a missing or false value becomes an empty list |
| EstablecimientoService.AmbienteRoundTrip | api/src/services/establecimiento_service.py:38-40 | a comma-join of a non-empty list whose values hold no comma is split back into that list, unless the list is [""] |
| EstablecimientoService.AmbienteSingleEmpty | api/src/services/establecimiento_service.py:39-42 | the join of [""] is "", which is false and becomes an empty list |
| EstablecimientoService.NormalizedFields | api/src/services/establecimiento_service.py:29-42 | the normalisation sets exactly `imagen_url` (the stored upload or the default establishment picture) and `ambiente`, leaving every other key as sent |
| EstablecimientoService.CrearEstablecimiento | api/src/services/establecimiento_service.py:19-67 | the schema receives the normalised data; a load, insert or link failure is mapped; on success the new id is linked to the data's `id_administrador` and the reply is 200 with the inserted record |
| EstablecimientoService.CreateFailureReply | api/src/services/establecimiento_service.py:59-67 | a validation error answers its first message with 400, any other exception 500 with its text |
| EstablecimientoService.CreateFailureStatus | api/src/services/establecimiento_service.py:59-67 | a failure is a 400 exactly for a validation error with a first message; every other failure is a 500 |
| EstablecimientoService.CleanupSteps | api/src/services/establecimiento_service.py:74-81 | the cleanups are, in order, the unlink from the record's `id_administrador` and the deletes of its offers, events and reviews |
| EstablecimientoService.FirstFailing | api/src/services/establecimiento_service.py:78-81 | the index found is the first cleanup that raises, every one before it succeeding, or the end when none raises |
| EstablecimientoService.FirstFailingAt | api/src/services/establecimiento_service.py:78-81 | the first failure is at the index where all earlier cleanups succeed and that one fails |
| EstablecimientoService.EliminarEstablecimiento | api/src/services/establecimiento_service.py:70-89 | a failed delete runs no cleanup; otherwise the cleanups run in order up to and including the first that raises; the reply is 200 with the deleted record exactly when the delete and all four cleanups succeed, else the failure's 404 or 500 |
| EstablecimientoService.CreatedId | api/src/services/establecimiento_service.py:142-147 | an id is found exactly when the answer does not raise, decodes to an object and holds a true value under the item's id key |
| EstablecimientoService.AddItem | api/src/services/establecimiento_service.py:123-196 | the item service receives the data with only `imagen_url` set; the item is linked to `id_establecimiento` exactly when its id came back; 200 with the backend's JSON exactly when the link succeeds; a missing id is a 500 naming the key; a backend 4xx or 5xx keeps its status and wraps its JSON |
| EstablecimientoService.ItemHttpErrorReply | api/src/services/establecimiento_service.py:152-156 | a backend error is answered with the backend status; its JSON body goes under "error", and a body that is not JSON gives a fixed message plus the error text |
| Service.ValidationReply | api/src/services/establecimiento_service.py:59-63 | 400 with the first field's first message exactly when there is one; otherwise the lookup itself raises and Flask answers its own 500 page |
| Service.ImagenUrl | api/src/services/establecimiento_service.py:29-33 | the path is under `/_uploads/photos/` and names the stored upload when one with a non-empty filename came, the default file otherwise |
| Service.DeleteFailureReply | api/src/services/establecimiento_service.py:84-89 | a `ValueError` is 404 with its text, a `RuntimeError` 500 with its text, anything else 500 with the prefix and its text |
| Service.HttpErrorStatusAsWritten | api/src/services/establecimiento_service.py:156 | as written, the status is the response's when the response is true and the fallback otherwise |
| Service.HttpErrorStatusLost | api/src/services/administrador_establecimientos_service.py:143 | for a response that made `raise_for_status` raise, the written expression always gives the fallback, never the backend's status |
| Service.HttpErrorStatus | api/src/services/establecimiento_service.py:194 | the status meant is the backend's own 4xx or 5xx |
| CrearActividadScreen.CrearActividad.constructor | AndroidStudio/app/src/main/java/com/example/hangout/ui/screens/user/CrearActividadScreen.kt:41-46 | the form starts with five empty fields and not loading |
| CrearActividadScreen.CrearActividad.PickDate | AndroidStudio/app/src/main/java/com/example/hangout/ui/screens/user/CrearActividadScreen.kt:50-57 | the date picker sets the date to the picked `yyyy-MM-dd` and nothing else |
| CrearActividadScreen.CrearActividad.PickTime | AndroidStudio/app/src/main/java/com/example/hangout/ui/screens/user/CrearActividadScreen.kt:62-69 | the time picker sets the time to the picked `HH:mm:00` and nothing else |
| CrearActividadScreen.CrearActividad.Submit | AndroidStudio/app/src/main/java/com/example/hangout/ui/screens/user/CrearActividadScreen.kt:139-155 | ignored while loading; a blank field of the five is refused with "Completa todos los campos"; otherwise loading starts and the request carries the three texts trimmed (so non-empty) and the date and time as they are |
| CrearActividadScreen.CrearActividad.Answer | AndroidStudio/app/src/main/java/com/example/hangout/ui/screens/user/CrearActividadScreen.kt:153-168 | loading ends in every case; an exception stays with "Error de red"; a 2xx marks `reload_actividades` and pops exactly then; any other status stays silently |
| CrearActividadScreen.PickedValuesSentAsIs | AndroidStudio/app/src/main/java/com/example/hangout/ui/screens/user/CrearActividadScreen.kt:141-152 | picked dates and times are never blank, the date passes the date check, and both are sent as the pickers wrote them |
| CrearEstablecimientoScreen.CrearEstablecimiento.constructor | AndroidStudio/app/src/main/java/com/example/hangout/ui/screens/admin/CrearEstablecimientoScreen.kt:57-60 | the form starts empty, with no ambiente and no image |
| CrearEstablecimientoScreen.CrearEstablecimiento.ToggleAmbiente | AndroidStudio/app/src/main/java/com/example/hangout/ui/screens/admin/CrearEstablecimientoScreen.kt:130-136 | a tile click flips exactly that ambiente's membership in the selection and leaves the rest of the form alone |
| CrearEstablecimientoScreen.CrearEstablecimiento.Submit | AndroidStudio/app/src/main/java/com/example/hangout/ui/screens/admin/CrearEstablecimientoScreen.kt:164-194 | a blank name or CIF is refused with "Completa nombre y CIF"; otherwise the name and CIF go as typed and the ambientes as the comma-join of the normalised selected names, which splits back into those names |
| CrearEstablecimientoScreen.AfterCreate | AndroidStudio/app/src/main/java/com/example/hangout/ui/screens/admin/CrearEstablecimientoScreen.kt:197-210 | a 2xx answer with a non-blank `id` opens the detail screen with that id as its data; anything else stays |
| CrearEventoScreen.PrecioNormalizado | AndroidStudio/app/src/main/java/com/example/hangout/ui/screens/admin/CrearEventoScreen.kt:188 | the sent price keeps its length and every character except that decimal commas become points |
| CrearEventoScreen.PickedValuesSentAsIs | AndroidStudio/app/src/main/java/com/example/hangout/ui/screens/admin/CrearEventoScreen.kt:188-194 | a picked date and time reach the request unchanged by trimming or second completion |
| CrearEventoScreen.CrearEvento.constructor | AndroidStudio/app/src/main/java/com/example/hangout/ui/screens/admin/CrearEventoScreen.kt:68-73 | the form starts with empty fields and no image |
| CrearEventoScreen.CrearEvento.PickDate | AndroidStudio/app/src/main/java/com/example/hangout/ui/screens/admin/CrearEventoScreen.kt:82-89 | the date picker sets only the date, to the picked `yyyy-MM-dd` |
| CrearEventoScreen.CrearEvento.PickTime | AndroidStudio/app/src/main/java/com/example/hangout/ui/screens/admin/CrearEventoScreen.kt:94-101 | the time picker sets only the time, to the picked `HH:mm:00` |
| CrearEventoScreen.CrearEvento.Submit | AndroidStudio/app/src/main/java/com/example/hangout/ui/screens/admin/CrearEventoScreen.kt:180-214 | a blank name, date, time or price is refused first, then a blank establishment id; a blank description passes; the request carries the price with points, the time with seconds and the trimmed date |
| CrearEventoScreen.AfterCreate | AndroidStudio/app/src/main/java/com/example/hangout/ui/screens/admin/CrearEventoScreen.kt:216-226 | a 2xx answer with a non-blank `id_evento` opens `datos_evento_admin/<id>`; anything else stays |
| CrearOfertaScreen.CrearOferta.constructor | AndroidStudio/app/src/main/java/com/example/hangout/ui/screens/admin/CrearOfertaScreen.kt:46-49 | the form starts with empty fields and no image |
| CrearOfertaScreen.CrearOferta.Submit | AndroidStudio/app/src/main/java/com/example/hangout/ui/screens/admin/CrearOfertaScreen.kt:124-151 | a blank name, description or price is refused; otherwise every field goes exactly as typed, the price without comma normalisation, with whatever establishment id was passed |
| CrearOfertaScreen.AfterCreate | AndroidStudio/app/src/main/java/com/example/hangout/ui/screens/admin/CrearOfertaScreen.kt:154-166 | a 2xx answer with a non-blank `id_oferta` opens `datos_oferta_admin/<id>`; anything else stays |
| CrearReviewScreen.FirstClaimSpec | AndroidStudio/app/src/main/java/com/example/hangout/ui/screens/user/CrearReviewScreen.kt:191-200 | the first of the claim keys present in the payload decides; none present gives no user id |
| CrearReviewScreen.DecodeJwtForUserId | AndroidStudio/app/src/main/java/com/example/hangout/ui/screens/user/CrearReviewScreen.kt:185-204 | a token with fewer than two dot-separated parts, or whose second part does not decode to a JSON object, gives no user id |
| CrearReviewScreen.SplitHasSecond | AndroidStudio/app/src/main/java/com/example/hangout/ui/screens/user/CrearReviewScreen.kt:186-187 | the token has a second part exactly when it holds a dot |
| CrearReviewScreen.ClaimPrecedence | AndroidStudio/app/src/main/java/com/example/hangout/ui/screens/user/CrearReviewScreen.kt:191-200 | with an object payload, `sub` beats `identity`, which beats `user_id`, then `id`, then `_id` (its `$oid` when it is an object, otherwise its `toString()`: a string as it is, anything else as JSON text) |
| CrearReviewScreen.ObtainUserId | AndroidStudio/app/src/main/java/com/example/hangout/ui/screens/user/CrearReviewScreen.kt:178-183 | no stored token or a blank one gives no user id; otherwise the token is decoded |
| CrearReviewScreen.NoDotNoUser | AndroidStudio/app/src/main/java/com/example/hangout/ui/screens/user/CrearReviewScreen.kt:186-187 | a stored token without a dot never yields a user id |
| CrearReviewScreen.CrearReview.constructor | AndroidStudio/app/src/main/java/com/example/hangout/ui/screens/user/CrearReviewScreen.kt:47-51 | the rating starts at the initial rating coerced into 1..5, with an empty message, no error, no user and not loading |
| CrearReviewScreen.CrearReview.LoadUserId | AndroidStudio/app/src/main/java/com/example/hangout/ui/screens/user/CrearReviewScreen.kt:55-60 | the user id is read from the stored token; when it is missing or blank the error asks to log in again |
| CrearReviewScreen.CrearReview.ClickStar | AndroidStudio/app/src/main/java/com/example/hangout/ui/screens/user/CrearReviewScreen.kt:83-92 | clicking star `i` sets the rating to `i`, which then shows exactly `i` filled stars |
| CrearReviewScreen.CrearReview.Publish | AndroidStudio/app/src/main/java/com/example/hangout/ui/screens/user/CrearReviewScreen.kt:117-138 | ignored while loading; without a user id the error is set and nothing is sent; otherwise loading starts, the error clears and the review goes with the current rating, message, user and establishment; an enabled button always sends |
| CrearReviewScreen.CrearReview.Answer | AndroidStudio/app/src/main/java/com/example/hangout/ui/screens/user/CrearReviewScreen.kt:141-155 | loading ends in every case; a 2xx marks `review_creada` and pops exactly then; another status sets "Error <code>"; an exception sets its message |
| DatosEstablecimientoScreen.DatosEstablecimiento.constructor | AndroidStudio/app/src/main/java/com/example/hangout/ui/screens/user/DatosEstablecimientoScreen.kt:58-66 | the screen starts with nothing loaded, a rating of 0, no lists and the offers tab |
| DatosEstablecimientoScreen.DatosEstablecimiento.LoadLists | AndroidStudio/app/src/main/java/com/example/hangout/ui/screens/user/DatosEstablecimientoScreen.kt:85-103 | events, then offers, then reviews are fetched by id; each list becomes the fetched list, and an exception leaves that list and the ones after it as they were |
| DatosEstablecimientoScreen.DatosEstablecimiento.Load | AndroidStudio/app/src/main/java/com/example/hangout/ui/screens/user/DatosEstablecimientoScreen.kt:68-107 | a 2xx answer sets the establishment (null when its body is); a 2xx rating answer sets the rating and count (0 for nulls); then the lists are fetched from the new establishment's ids; an exception stops the effect where it happens |
| DatosEstablecimientoScreen.DatosEstablecimiento.SelectTab | AndroidStudio/app/src/main/java/com/example/hangout/ui/screens/user/DatosEstablecimientoScreen.kt:230-238 | the tab buttons set only the selected tab: the record, its rating and review count and the three lists stay |
| DatosEstablecimientoScreen.ListsInIdOrder | AndroidStudio/app/src/main/java/com/example/hangout/ui/screens/user/DatosEstablecimientoScreen.kt:85-97 | when every id delivers, the event and offer lists hold one fetched record per id, in id order |
| DatosEstablecimientoScreen.Listed | AndroidStudio/app/src/main/java/com/example/hangout/ui/screens/user/DatosEstablecimientoScreen.kt:248-280 | tab 0 lists the offers, any other tab the events |
| DatosEstablecimientoScreen.ShownReviews | AndroidStudio/app/src/main/java/com/example/hangout/ui/screens/user/DatosEstablecimientoScreen.kt:297 | at most the first review is shown, and one is shown exactly when there is one |
| DatosEstablecimientoScreen.ReviewCardStars | AndroidStudio/app/src/main/java/com/example/hangout/ui/screens/user/DatosEstablecimientoScreen.kt:299-301 | a review card fills the first 0..5 stars: the truncated rating coerced into 0..5, none below 1, all five from 5 on |
| DatosEstablecimientoScreen.Title | AndroidStudio/app/src/main/java/com/example/hangout/ui/screens/user/DatosEstablecimientoScreen.kt:111-117 | the title is the establishment's name, or "Establecimiento" when it is blank or nothing is loaded |
| DatosEstablecimientoScreen.PriceLabel | AndroidStudio/app/src/main/java/com/example/hangout/ui/screens/user/DatosEstablecimientoScreen.kt:341 | a price label appears, with " €", exactly for a non-blank price |
| DatosEstablecimientoScreen.HeaderImageOnEmulator | AndroidStudio/app/src/main/java/com/example/hangout/ui/screens/user/DatosEstablecimientoScreen.kt:380-385 | every image URL of the screen points at the emulator host, never the loopback address; without an establishment it is the default establishment picture |
| DatosEventoScreen.ToLongOrNull | AndroidStudio/app/src/main/java/com/example/hangout/ui/screens/user/DatosEventoScreen.kt:304 | a digit string is read only when it is non-empty and fits a `Long` |
| DatosEventoScreen.ParseFechaMillis | AndroidStudio/app/src/main/java/com/example/hangout/ui/screens/user/DatosEventoScreen.kt:301-322 | the digit test followed by the pattern loop with its early return gives the instant the reference definition gives |
| DatosEventoScreen.FechaMillisAbsent | AndroidStudio/app/src/main/java/com/example/hangout/ui/screens/user/DatosEventoScreen.kt:302 | no date, or an empty one, gives no instant |
| DatosEventoScreen.FechaMillisDigits | AndroidStudio/app/src/main/java/com/example/hangout/ui/screens/user/DatosEventoScreen.kt:303-304 | epoch milliseconds in decimal read back as themselves when they fit a `Long`, and give nothing beyond it |
| DatosEventoScreen.FechaMillisPatterns | AndroidStudio/app/src/main/java/com/example/hangout/ui/screens/user/DatosEventoScreen.kt:306-320 | other text gives an instant exactly when one of the five patterns parses it, and then the earliest such pattern's |
| DatosEventoScreen.FormatFechaCorta | AndroidStudio/app/src/main/java/com/example/hangout/ui/screens/user/DatosEventoScreen.kt:324-328 | no instant gives ""; an instant is formatted |
| DatosEventoScreen.ChipsOf | AndroidStudio/app/src/main/java/com/example/hangout/ui/screens/user/DatosEventoScreen.kt:134-155 | the place chip always shows the establishment's name; the date chip appears exactly for a non-blank date text and the time chip exactly for a non-blank event time |
| DatosEventoScreen.NoInstantNoDateChip | AndroidStudio/app/src/main/java/com/example/hangout/ui/screens/user/DatosEventoScreen.kt:58-60 | an event whose date cannot be read shows no date chip |
| DatosEventoScreen.Title | AndroidStudio/app/src/main/java/com/example/hangout/ui/screens/user/DatosEventoScreen.kt:65 | the title is "Evento en " followed by the establishment's name |
| DatosEventoScreen.HeaderImageOnEmulator | AndroidStudio/app/src/main/java/com/example/hangout/ui/screens/user/DatosEventoScreen.kt:293-298 | the event image points at the emulator host, never the loopback address; without an event it is the default picture |
| DatosEventoScreen.ChooseEvento | AndroidStudio/app/src/main/java/com/example/hangout/ui/screens/user/DatosEventoScreen.kt:230-241 | a mini card click rewrites the previous entry's handle as `MoreItems.Choose` states and reopens "datos_evento" |
| DatosOfertaScreen.PriceText | AndroidStudio/app/src/main/java/com/example/hangout/ui/screens/user/DatosOfertaScreen.kt:50 | only a missing offer gives "", since Gson fills an absent primitive price with 0 |
| DatosOfertaScreen.PriceBadge | AndroidStudio/app/src/main/java/com/example/hangout/ui/screens/user/DatosOfertaScreen.kt:90-100 | the price badge shows exactly for a non-blank price text |
| DatosOfertaScreen.BadgeIffOffer | AndroidStudio/app/src/main/java/com/example/hangout/ui/screens/user/DatosOfertaScreen.kt:50-90 | with a formatter that always writes something, the badge shows exactly when an offer is loaded |
| DatosOfertaScreen.Title | AndroidStudio/app/src/main/java/com/example/hangout/ui/screens/user/DatosOfertaScreen.kt:55 | the title is "Oferta en " followed by the establishment's name |
| DatosOfertaScreen.HeaderImageOnEmulator | AndroidStudio/app/src/main/java/com/example/hangout/ui/screens/user/DatosOfertaScreen.kt:217-222 | the offer image points at the emulator host, never the loopback address; without an offer it is the default picture |
| DatosOfertaScreen.ChooseOferta | AndroidStudio/app/src/main/java/com/example/hangout/ui/screens/user/DatosOfertaScreen.kt:151-164 | a mini card click rewrites the previous entry's handle as `MoreItems.Choose` states and reopens "datos_oferta" |
| DatosEventosScreen.AfterDateKey | AndroidStudio/app/src/main/java/com/example/hangout/ui/screens/admin/DatosEventosScreen.kt:166-170 | a text yields a date exactly when it holds `date=` |
| DatosEventosScreen.IsoOf | AndroidStudio/app/src/main/java/com/example/hangout/ui/screens/admin/DatosEventosScreen.kt:162-174 | a string is read as it is, a map through its `$date` or `date` entry, a null not at all |
| DatosEventosScreen.FormatDate | AndroidStudio/app/src/main/java/com/example/hangout/ui/screens/admin/DatosEventosScreen.kt:161-197 | the pattern loop with its early return gives what the reference definition gives |
| DatosEventosScreen.FormatDateSpec | AndroidStudio/app/src/main/java/com/example/hangout/ui/screens/admin/DatosEventosScreen.kt:176-196 | text no pattern parses is shown as read; otherwise the earliest pattern that parses it decides the shown date |
| DatosEventosScreen.FormatDateDash | AndroidStudio/app/src/main/java/com/example/hangout/ui/screens/admin/DatosEventosScreen.kt:166-172 | a null, or a value whose text lacks `date=`, shows "—" |
| DatosEventosScreen.TrimQuotesOfSolid | AndroidStudio/app/src/main/java/com/example/hangout/ui/screens/admin/DatosEventosScreen.kt:170 | text with no surrounding blanks or quotes passes `trim().trim('"')` unchanged |
| DatosEventosScreen.FechaKeyAt | AndroidStudio/app/src/main/java/com/example/hangout/ui/screens/admin/DatosEventosScreen.kt:167 | in the text of a `FechaWrapper` the first `date=` sits at index 13 |
| DatosEventosScreen.FechaEndAt | AndroidStudio/app/src/main/java/com/example/hangout/ui/screens/admin/DatosEventosScreen.kt:168-169 | the date ends at the closing parenthesis when it holds no `}`, `,` or `)` |
| DatosEventosScreen.FechaRecovered | AndroidStudio/app/src/main/java/com/example/hangout/ui/screens/admin/DatosEventosScreen.kt:165-171 | a `FechaWrapper` whose date has no end character and no surrounding blanks or quotes is read back exactly |
| DatosEventosScreen.FormatPrice | AndroidStudio/app/src/main/java/com/example/hangout/ui/screens/admin/DatosEventosScreen.kt:151-158 | a number is formatted, a string when it reads as a number; anything else shows "—" |
| DatosEventosScreen.RowValue | AndroidStudio/app/src/main/java/com/example/hangout/ui/screens/admin/DatosEventosScreen.kt:143-147 | a null value shows "—", any other value as it is |
| DatosEventosScreen.Titulo | AndroidStudio/app/src/main/java/com/example/hangout/ui/screens/admin/DatosEventosScreen.kt:49 | the title is the event's name, or "Evento" until one is loaded |
| DatosEventosScreen.DetailOfEvento | AndroidStudio/app/src/main/java/com/example/hangout/ui/screens/admin/DatosEventosScreen.kt:97-104 | a loaded event with a plain date shows that date reformatted by the first pattern that parses it (or as it is), and a formatted price, never "—" |
| DatosEventosScreen.DatosEventos.constructor | AndroidStudio/app/src/main/java/com/example/hangout/ui/screens/admin/DatosEventosScreen.kt:35-37 | the screen starts loading, with no event and no dialog |
| DatosEventosScreen.DatosEventos.Load | AndroidStudio/app/src/main/java/com/example/hangout/ui/screens/admin/DatosEventosScreen.kt:39-47 | the event becomes the answer's body whatever its status; loading ends in every case, and the screen crashes (after the `finally`) exactly when the call throws |
| DatosEventosScreen.AfterDelete | AndroidStudio/app/src/main/java/com/example/hangout/ui/screens/admin/DatosEventosScreen.kt:124-129 | a 2xx answer pops back without a flag; anything else stays |
| DatosPerfilScreen.NestedText | AndroidStudio/app/src/main/java/com/example/hangout/ui/screens/user/DatosPerfilScreen.kt:375 | a nested object's text, or "" when the object is missing |
| DatosPerfilScreen.ArrayOrEmpty | AndroidStudio/app/src/main/java/com/example/hangout/ui/screens/user/DatosPerfilScreen.kt:385 | a missing array reads as an empty one |
| DatosPerfilScreen.ParticipantesSpec | AndroidStudio/app/src/main/java/com/example/hangout/ui/screens/user/DatosPerfilScreen.kt:391-399 | the participants parse exactly when every element is an object, one participant per element in order |
| DatosPerfilScreen.ActividadCellSpec | AndroidStudio/app/src/main/java/com/example/hangout/ui/screens/user/DatosPerfilScreen.kt:388-410 | an activity parses exactly when it and its participants are objects, to one record with one participant per element |
| DatosPerfilScreen.PerfilOfSpec | AndroidStudio/app/src/main/java/com/example/hangout/ui/screens/user/DatosPerfilScreen.kt:370-428 | the profile parses exactly when `usuario` and every activity, participant and review are objects; then one activity per element, each with its participants, and one review per element, all in order, a missing rating reading as 0.0 and missing arrays as empty |
| DatosPerfilScreen.ParseParticipantes | AndroidStudio/app/src/main/java/com/example/hangout/ui/screens/user/DatosPerfilScreen.kt:390-399 | the participants loop builds the list the reference definition gives |
| DatosPerfilScreen.ParseActividades | AndroidStudio/app/src/main/java/com/example/hangout/ui/screens/user/DatosPerfilScreen.kt:386-411 | the activities loop, with the participants loop nested in it, builds the list the reference definition gives |
| DatosPerfilScreen.ParseReviews | AndroidStudio/app/src/main/java/com/example/hangout/ui/screens/user/DatosPerfilScreen.kt:413-426 | the reviews loop builds the list the reference definition gives |
| DatosPerfilScreen.ParsePerfil | AndroidStudio/app/src/main/java/com/example/hangout/ui/screens/user/DatosPerfilScreen.kt:370-429 | `parsePerfil` gives the profile the reference definition gives, or fails where it throws |
| DatosPerfilScreen.ToListString | AndroidStudio/app/src/main/java/com/example/hangout/ui/screens/user/DatosPerfilScreen.kt:431-435 | the loop reads every element as a string, in order |
| DatosPerfilScreen.FieldText | AndroidStudio/app/src/main/java/com/example/hangout/ui/screens/user/DatosPerfilScreen.kt:295-309 | a blank value shows "—", so a field never shows blank |
| DatosPerfilScreen.DatosPerfil.constructor | AndroidStudio/app/src/main/java/com/example/hangout/ui/screens/user/DatosPerfilScreen.kt:68-70 | the screen starts loading, with no profile and no error |
| DatosPerfilScreen.DatosPerfil.LoadPerfil | AndroidStudio/app/src/main/java/com/example/hangout/ui/screens/user/DatosPerfilScreen.kt:72-89 | loading ends in every case; an exception sets its message, a failed status "HTTP <code>", an unparsable body the parse error, and a parsed profile replaces the shown one |
| DatosPerfilScreen.DatosPerfil.OnReload | AndroidStudio/app/src/main/java/com/example/hangout/ui/screens/user/DatosPerfilScreen.kt:96-107 | a raised `reload_perfil` signal loads the profile again with all four outcomes of the launch load (exception, failed status, unparsable body, parsed profile) and is reset; otherwise nothing changes |
| EditarEstablecimientoScreen.InitialSelectionSpec | AndroidStudio/app/src/main/java/com/example/hangout/ui/screens/admin/EditarEstablecimientoScreen.kt:52-54 | the loaded selection is exactly the catalogue entries whose normalised name is among the normalised stored ambientes, each once |
| EditarEstablecimientoScreen.UpdatedReloads | AndroidStudio/app/src/main/java/com/example/hangout/ui/screens/admin/EditarEstablecimientoScreen.kt:131-143 | reloading a saved record selects again every ambiente that was selected, and nothing whose key was not selected |
| EditarEstablecimientoScreen.EditarEstablecimiento.constructor | AndroidStudio/app/src/main/java/com/example/hangout/ui/screens/admin/EditarEstablecimientoScreen.kt:39-43 | the screen starts loading, with no record, an empty name and no selection |
| EditarEstablecimientoScreen.EditarEstablecimiento.Load | AndroidStudio/app/src/main/java/com/example/hangout/ui/screens/admin/EditarEstablecimientoScreen.kt:45-65 | a 2xx answer with a body fills the name and the selection from the record; a failure or an exception pops back; loading ends in every case |
| EditarEstablecimientoScreen.EditarEstablecimiento.ToggleAmbiente | AndroidStudio/app/src/main/java/com/example/hangout/ui/screens/admin/EditarEstablecimientoScreen.kt:116-117 | a tile click flips exactly that ambiente's membership in the selection |
| EditarEstablecimientoScreen.EditarEstablecimiento.Save | AndroidStudio/app/src/main/java/com/example/hangout/ui/screens/admin/EditarEstablecimientoScreen.kt:125-146 | nothing happens without a record; a blank trimmed name is refused; otherwise the record is sent with the trimmed name and the normalised selected names, every other field as loaded |
| EditarEstablecimientoScreen.AfterSave | AndroidStudio/app/src/main/java/com/example/hangout/ui/screens/admin/EditarEstablecimientoScreen.kt:147-153 | a 2xx answer sets `refresh_establecimiento` on the previous entry and pops; anything else stays |
| EditarEventoScreen.YmdTail | AndroidStudio/app/src/main/java/com/example/hangout/ui/screens/admin/EditarEventoScreen.kt:263-277 | no text gives null; a `yyyy-MM-dd` text is kept; other text is reformatted when the first ISO pattern reads it and kept as it is otherwise |
| EditarEventoScreen.ExtractDateYMD | AndroidStudio/app/src/main/java/com/example/hangout/ui/screens/admin/EditarEventoScreen.kt:230-278 | the pattern loop with its early exit gives what the reference definition gives |
| EditarEventoScreen.DateYmdOfSpec | AndroidStudio/app/src/main/java/com/example/hangout/ui/screens/admin/EditarEventoScreen.kt:231-261 | a `yyyy-MM-dd` string comes back unchanged; a map is read at `$date` before `date`; any other kind of value gives null; an unreformatted result is a text the value carried |
| EditarEventoScreen.LoadedFechaAsWrittenIsEmpty | AndroidStudio/app/src/main/java/com/example/hangout/ui/screens/admin/EditarEventoScreen.kt:81 | handed the date wrapper itself, the extraction always gives null, so the date field starts empty |
| EditarEventoScreen.LoadedFechaShowsDate | AndroidStudio/app/src/main/java/com/example/hangout/ui/screens/admin/EditarEventoScreen.kt:81 | handed the wrapper's date text, a stored `yyyy-MM-dd` date is shown as it is |
| EditarEventoScreen.EventoDiffKeys | AndroidStudio/app/src/main/java/com/example/hangout/ui/screens/admin/EditarEventoScreen.kt:101-129 | from trimmed texts, the change set holds each of the five keys exactly when its condition holds, with the value the form gives |
| EditarEventoScreen.EventoChangesKeys | AndroidStudio/app/src/main/java/com/example/hangout/ui/screens/admin/EditarEventoScreen.kt:101-129 | only the five event keys appear: name and description when non-empty and changed, price when changed, date and time when filled in, the time with seconds |
| EditarEventoScreen.PatchEventoChanges | AndroidStudio/app/src/main/java/com/example/hangout/ui/screens/admin/EditarEventoScreen.kt:101-139 | applying the change set gives the event the form shows: trimmed texts, blank fields keeping the stored value, the parsed price and the time with seconds; id, establishment and image stay |
| EditarEventoScreen.EditarEvento.constructor | AndroidStudio/app/src/main/java/com/example/hangout/ui/screens/admin/EditarEventoScreen.kt:36-43 | the screen starts loading, with no event and empty fields |
| EditarEventoScreen.EditarEvento.Load | AndroidStudio/app/src/main/java/com/example/hangout/ui/screens/admin/EditarEventoScreen.kt:71-87 | the event becomes the answer's body; a body fills the fields, the date through the corrected `LoadedFecha` and the time completed with seconds; loading ends in every case, and the screen crashes exactly when the call throws |
| EditarEventoScreen.EditarEvento.PickDate | AndroidStudio/app/src/main/java/com/example/hangout/ui/screens/admin/EditarEventoScreen.kt:46-53 | the date picker sets only the date, to the picked `yyyy-MM-dd` |
| EditarEventoScreen.EditarEvento.PickTime | AndroidStudio/app/src/main/java/com/example/hangout/ui/screens/admin/EditarEventoScreen.kt:58-65 | the time picker sets only the time, to the picked `HH:mm:00` |
| EditarEventoScreen.EditarEvento.Save | AndroidStudio/app/src/main/java/com/example/hangout/ui/screens/admin/EditarEventoScreen.kt:99-134 | nothing without an event; an unreadable price is refused, then a filled date that is not `yyyy-MM-dd`; an empty change set is refused with "No hay cambios"; otherwise the change set is sent |
| EditarOfertaScreen.OfertaChangesKeys | AndroidStudio/app/src/main/java/com/example/hangout/ui/screens/admin/EditarOfertaScreen.kt:65-79 | only the three offer keys appear, each exactly when its field changed, carrying the trimmed text or the parsed price |
| EditarOfertaScreen.PatchOfertaChanges | AndroidStudio/app/src/main/java/com/example/hangout/ui/screens/admin/EditarOfertaScreen.kt:65-90 | applying the change set gives the offer the form shows: trimmed texts, a blank text keeping the stored value, and the parsed price |
| EditarOfertaScreen.EditarOferta.constructor | AndroidStudio/app/src/main/java/com/example/hangout/ui/screens/admin/EditarOfertaScreen.kt:30-35 | the screen starts loading, with no offer and empty fields |
| EditarOfertaScreen.EditarOferta.Load | AndroidStudio/app/src/main/java/com/example/hangout/ui/screens/admin/EditarOfertaScreen.kt:37-51 | the offer becomes the answer's body whatever its status; a body fills the form; loading ends in every case, and the screen crashes (after the `finally`) exactly when the call throws |
| EditarOfertaScreen.EditarOferta.Save | AndroidStudio/app/src/main/java/com/example/hangout/ui/screens/admin/EditarOfertaScreen.kt:63-84 | nothing without an offer; an unreadable price is refused; an empty change set is refused with "No hay cambios"; otherwise the change set is sent |
| EditarOfertaScreen.NothingToSaveAfterLoad | AndroidStudio/app/src/main/java/com/example/hangout/ui/screens/admin/EditarOfertaScreen.kt:44-84 | saving straight after a load, with trimmed stored texts and a price that reads back as itself, has nothing to send |
| EditarPerfilScreen.CsrfPart | AndroidStudio/app/src/main/java/com/example/hangout/ui/screens/user/EditarPerfilScreen.kt:83-84 | a part yields a value only when, trimmed, it is `csrf_access_token=` followed by that value |
| EditarPerfilScreen.ParseCsrfFromCookie | AndroidStudio/app/src/main/java/com/example/hangout/ui/screens/user/EditarPerfilScreen.kt:79-87 | the search loop with its early return gives what the reference definition gives |
| EditarPerfilScreen.FirstCsrfSpec | AndroidStudio/app/src/main/java/com/example/hangout/ui/screens/user/EditarPerfilScreen.kt:81-86 | the token is found exactly when some part is the CSRF pair, and it is the value of the earliest such part |
| EditarPerfilScreen.CsrfPartWhole | AndroidStudio/app/src/main/java/com/example/hangout/ui/screens/user/EditarPerfilScreen.kt:83-84 | only the first `=` cuts, so a token value holding `=` comes back whole |
| EditarPerfilScreen.FirstEqualsAt | AndroidStudio/app/src/main/java/com/example/hangout/ui/screens/user/EditarPerfilScreen.kt:83 | in key `=` value with no `=` in the key, the first `=` follows the key |
| EditarPerfilScreen.SplitFirstUnique | AndroidStudio/app/src/main/java/com/example/hangout/ui/screens/user/EditarPerfilScreen.kt:83 | two cuts of the same text at a first `=` give the same key and value |
| EditarPerfilScreen.BackendPrefs | AndroidStudio/app/src/main/java/com/example/hangout/ui/screens/user/EditarPerfilScreen.kt:121-127 | the loop collects the normalised key of every stored preference, and nothing without the array |
| EditarPerfilScreen.SavedPrefsKnown | AndroidStudio/app/src/main/java/com/example/hangout/ui/screens/user/EditarPerfilScreen.kt:128-129 | a selection picked by key on load saves only stored keys; stored preferences the catalogue does not know are dropped |
| EditarPerfilScreen.EditarPerfil.constructor | AndroidStudio/app/src/main/java/com/example/hangout/ui/screens/user/EditarPerfilScreen.kt:96-104 | the screen starts loading, not saving, with no error, empty fields and no selection |
| EditarPerfilScreen.EditarPerfil.Load | AndroidStudio/app/src/main/java/com/example/hangout/ui/screens/user/EditarPerfilScreen.kt:106-136 | a failed status sets "HTTP <code>"; an exception or a missing `usuario` sets an error, and on those branches the four fields and the selection stay; otherwise they are filled; loading ends in every case |
| EditarPerfilScreen.EditarPerfil.Fill | AndroidStudio/app/src/main/java/com/example/hangout/ui/screens/user/EditarPerfilScreen.kt:114-129 | the four fields are read with "" as fallback and the selection is the catalogue entries whose key is among the stored preferences |
| EditarPerfilScreen.EditarPerfil.TogglePreferencia | AndroidStudio/app/src/main/java/com/example/hangout/ui/screens/user/EditarPerfilScreen.kt:226-229 | a click flips exactly that preference's membership in the selection; the fields, loading, saving and the error stay |
| EditarPerfilScreen.EditarPerfil.Save | AndroidStudio/app/src/main/java/com/example/hangout/ui/screens/user/EditarPerfilScreen.kt:262-306 | a blank name, user name or e-mail, then the lack of both token and cookie, is refused; otherwise saving starts and the PUT carries the trimmed fields, the normalised preferences and one header per credential present |
| EditarPerfilScreen.EditarPerfil.AfterSave | AndroidStudio/app/src/main/java/com/example/hangout/ui/screens/user/EditarPerfilScreen.kt:310-324 | an answered PUT ends saving; a 2xx status opens the profile again, anything else stays; an exception from `execute()` crashes the screen with saving still up; the fields, selection, loading and error stay |
| EventosActividadesScreen.NestedText | AndroidStudio/app/src/main/java/com/example/hangout/ui/screens/user/EventosActividadesScreen.kt:61 | a nested string field is "" when the outer object is missing, else the inner field with "" as fallback |
| EventosActividadesScreen.ArrayOrEmpty | AndroidStudio/app/src/main/java/com/example/hangout/ui/screens/user/EventosActividadesScreen.kt:68 | a missing array reads as the empty array; a present one as itself |
| EventosActividadesScreen.ActividadCellSpec | AndroidStudio/app/src/main/java/com/example/hangout/ui/screens/user/EventosActividadesScreen.kt:60-91 | an activity decodes exactly when it and each of its participants are objects, into one item whose participants come one per element, in order, with "" for missing fields |
| EventosActividadesScreen.ActividadesSpec | AndroidStudio/app/src/main/java/com/example/hangout/ui/screens/user/EventosActividadesScreen.kt:57-93 | the activity list has one item per element, in order, and decodes exactly when every element does |
| EventosActividadesScreen.ParseParticipantes | AndroidStudio/app/src/main/java/com/example/hangout/ui/screens/user/EventosActividadesScreen.kt:69-79 | the participants loop builds the list the reference definition gives |
| EventosActividadesScreen.ParseActividades | AndroidStudio/app/src/main/java/com/example/hangout/ui/screens/user/EventosActividadesScreen.kt:58-92 | the activities loop builds the list the reference definition gives, or fails where `getJSONObject` throws |
| EventosActividadesScreen.ActividadesOf | AndroidStudio/app/src/main/java/com/example/hangout/ui/screens/user/EventosActividadesScreen.kt:49-97 | a failed status, a blank body or an exception yield no new list |
| EventosActividadesScreen.NombreEstablecimiento | AndroidStudio/app/src/main/java/com/example/hangout/ui/screens/user/EventosActividadesScreen.kt:120-130 | the establishment name is looked up only for a non-blank id; a failed status, a missing body or an exception leave "" |
| EventosActividadesScreen.EventosSpec | AndroidStudio/app/src/main/java/com/example/hangout/ui/screens/user/EventosActividadesScreen.kt:110-143 | the event list has one item per element of `eventos_ordenados`, in order, and decodes exactly when every element is an object |
| EventosActividadesScreen.LookupNombre | AndroidStudio/app/src/main/java/com/example/hangout/ui/screens/user/EventosActividadesScreen.kt:120-130 | the guarded lookup gives the name the reference definition gives |
| EventosActividadesScreen.ParseEventos | AndroidStudio/app/src/main/java/com/example/hangout/ui/screens/user/EventosActividadesScreen.kt:110-143 | the events loop, one lookup per event, builds the list the reference definition gives |
| EventosActividadesScreen.EventosOf | AndroidStudio/app/src/main/java/com/example/hangout/ui/screens/user/EventosActividadesScreen.kt:100-148 | a failed status, a blank body, a missing `eventos_ordenados` or an exception yield no new list |
| EventosActividadesScreen.EventosActividades.constructor | AndroidStudio/app/src/main/java/com/example/hangout/ui/screens/user/EventosActividadesScreen.kt:46-47 | both lists start empty |
| EventosActividadesScreen.EventosActividades.ReloadActividades | AndroidStudio/app/src/main/java/com/example/hangout/ui/screens/user/EventosActividadesScreen.kt:49-97 | a decoded list replaces the activities; otherwise they are kept; the events never change |
| EventosActividadesScreen.EventosActividades.LoadEventos | AndroidStudio/app/src/main/java/com/example/hangout/ui/screens/user/EventosActividadesScreen.kt:100-148 | a decoded list replaces the events; otherwise they are kept; the activities never change |
| EventosActividadesScreen.EventosActividades.OnReload | AndroidStudio/app/src/main/java/com/example/hangout/ui/screens/user/EventosActividadesScreen.kt:153-165 | a true signal reloads the activities (replaced when the answer decodes, kept otherwise) and is reset to false; a false one changes nothing; the events are kept |
| EventosActividadesScreen.Subtitle | AndroidStudio/app/src/main/java/com/example/hangout/ui/screens/user/EventosActividadesScreen.kt:304 | a card's subtitle is the establishment name, or "Establecimiento" when it is blank |
| EventosActividadesScreen.SubtitleOfUnknown | AndroidStudio/app/src/main/java/com/example/hangout/ui/screens/user/EventosActividadesScreen.kt:120-130 | an event with a blank establishment id or a failed lookup is shown under "Establecimiento" |
| EventosActividadesScreen.FormatDate | AndroidStudio/app/src/main/java/com/example/hangout/ui/screens/user/EventosActividadesScreen.kt:355-366 | a blank text gives ""; a text the ISO pattern parses gives its reformatting; any other text is shown as it came |
| InicioAdministradorScreen.ReviewIdsSpec | AndroidStudio/app/src/main/java/com/example/hangout/ui/screens/admin/InicioAdministradorScreen.kt:152-161 | ids are extracted exactly when every element is an object; each id kept is non-blank and is some element's `_id.$oid`; the order of the array is kept |
| InicioAdministradorScreen.ReviewIdsOne | AndroidStudio/app/src/main/java/com/example/hangout/ui/screens/admin/InicioAdministradorScreen.kt:156-158 | an element with a blank id is skipped, any other contributes its id |
| InicioAdministradorScreen.ExtractReviewIds | AndroidStudio/app/src/main/java/com/example/hangout/ui/screens/admin/InicioAdministradorScreen.kt:152-161 | the loop gives the ids the reference definition gives, and none without an array |
| InicioAdministradorScreen.JsonToEstablecimientoSpec | AndroidStudio/app/src/main/java/com/example/hangout/ui/screens/admin/InicioAdministradorScreen.kt:123-145 | the record carries the id of `_id.$oid`, no administrator id and the default image path when `imagen_url` is absent; decoding fails exactly when `_id` is not an object with `$oid` or a review element is not an object |
| InicioAdministradorScreen.ItemOf | AndroidStudio/app/src/main/java/com/example/hangout/ui/screens/admin/InicioAdministradorScreen.kt:114-118 | a card keeps the very object it was decoded from, which is an object |
| InicioAdministradorScreen.ItemOfDefaults | AndroidStudio/app/src/main/java/com/example/hangout/ui/screens/admin/InicioAdministradorScreen.kt:116-117 | a missing rating is 0.0, a missing review count 0, and the record is the decoded establishment |
| InicioAdministradorScreen.AdminPerfilSpec | AndroidStudio/app/src/main/java/com/example/hangout/ui/screens/admin/InicioAdministradorScreen.kt:108-121 | one card per element of `establecimientos_detalle`, in order; any element that does not decode makes the whole parse fail |
| InicioAdministradorScreen.ParseAdminPerfil | AndroidStudio/app/src/main/java/com/example/hangout/ui/screens/admin/InicioAdministradorScreen.kt:108-121 | the loop builds the cards the reference definition gives |
| InicioAdministradorScreen.InicioAdministrador.constructor | AndroidStudio/app/src/main/java/com/example/hangout/ui/screens/admin/InicioAdministradorScreen.kt:42 | the screen starts with no cards |
| InicioAdministradorScreen.InicioAdministrador.Load | AndroidStudio/app/src/main/java/com/example/hangout/ui/screens/admin/InicioAdministradorScreen.kt:44-58 | a delivered profile that parses replaces the cards; a failed status, an exception or a parse failure leaves them |
| InicioAdministradorScreen.DefaultPathImage | AndroidStudio/app/src/main/java/com/example/hangout/ui/screens/admin/InicioAdministradorScreen.kt:133 | the default establishment path is a server path, so the card shows the default establishment picture, not `default.png` |
| InicioAdministradorScreen.CardImageOfMissing | AndroidStudio/app/src/main/java/com/example/hangout/ui/screens/admin/InicioAdministradorScreen.kt:133 | a card decoded without `imagen_url` shows the default establishment picture |
| InicioAdministradorScreen.CardDataIsInline | AndroidStudio/app/src/main/java/com/example/hangout/ui/screens/admin/InicioAdministradorScreen.kt:91-93 | the text a card hands the detail screen is taken there as inline JSON, never as an id |
| InicioUsuarioScreen.RankedOf | AndroidStudio/app/src/main/java/com/example/hangout/ui/screens/user/InicioUsuarioScreen.kt:60-62 | an element decodes exactly when it is an array whose first three items are an object Gson reads, a number and a number; the triple holds the establishment, the rating and the count cut to an integer |
| InicioUsuarioScreen.DecodeRanked | AndroidStudio/app/src/main/java/com/example/hangout/ui/screens/user/InicioUsuarioScreen.kt:59-63 | one triple per element, in order, and a list exactly when every element decodes |
| InicioUsuarioScreen.LoadStep | AndroidStudio/app/src/main/java/com/example/hangout/ui/screens/user/InicioUsuarioScreen.kt:55-63 | a failed status or a null body keeps the list; a delivered array that decodes replaces it with its triples; anything else throws |
| InicioUsuarioScreen.InicioUsuario.constructor | AndroidStudio/app/src/main/java/com/example/hangout/ui/screens/user/InicioUsuarioScreen.kt:45-47 | both lists start empty and the first chip is selected |
| InicioUsuarioScreen.InicioUsuario.Load | AndroidStudio/app/src/main/java/com/example/hangout/ui/screens/user/InicioUsuarioScreen.kt:50-78 | the best-rated list is replaced only by a decoded answer; the personalised list only by a decoded answer when the first step did not throw; the chip is kept |
| InicioUsuarioScreen.InicioUsuario.ClickChip | AndroidStudio/app/src/main/java/com/example/hangout/ui/screens/user/InicioUsuarioScreen.kt:129-131 | after a click exactly the clicked chip is selected, and the lists are kept |
| InicioUsuarioScreen.LoadedTriples | AndroidStudio/app/src/main/java/com/example/hangout/ui/screens/user/InicioUsuarioScreen.kt:59-63 | a delivered array whose every element decodes gives one triple per element with that element's rating and truncated count |
| InicioUsuarioScreen.ShortAddress | AndroidStudio/app/src/main/java/com/example/hangout/ui/screens/user/InicioUsuarioScreen.kt:303 | the address line is "C. ", the first twelve characters of the name (all of a shorter one), then ", 1" |
| InicioUsuarioScreen.CardRoute | AndroidStudio/app/src/main/java/com/example/hangout/ui/screens/user/InicioUsuarioScreen.kt:113-115 | a card opens the establishment's detail route exactly when its id is not blank |
| InicioUsuarioScreen.NoIdNoRoute | AndroidStudio/app/src/main/java/com/example/hangout/ui/screens/user/InicioUsuarioScreen.kt:113-115 | an establishment without `_id` opens nothing |
| InicioUsuarioScreen.CardImageOnEmulator | AndroidStudio/app/src/main/java/com/example/hangout/ui/screens/user/InicioUsuarioScreen.kt:297-302 | a card picture never points at the loopback host, and a blank path gives the emulator's default establishment picture |
| LoginScreen.AuthPrefs.constructor | AndroidStudio/app/src/main/java/com/example/hangout/ui/screens/LoginScreen.kt:112-115 | the preferences start with the token given |
| LoginScreen.BodyText | AndroidStudio/app/src/main/java/com/example/hangout/ui/screens/LoginScreen.kt:96 | a body text exists only for a 2xx answer, and is the answer's body |
| LoginScreen.Decide | AndroidStudio/app/src/main/java/com/example/hangout/ui/screens/LoginScreen.kt:89-126 | an exception shows its message; an empty body shows "Respuesta vacía"; the token is kept exactly for an accepted login with a non-empty token; the two known roles open their home screens, any other role keeps the token and shows "Rol desconocido" |
| LoginScreen.RejectedCredentials | AndroidStudio/app/src/main/java/com/example/hangout/ui/screens/LoginScreen.kt:103-110 | a refused or tokenless answer shows "Credenciales incorrectas" and keeps nothing |
| LoginScreen.UnknownRoleKeepsToken | AndroidStudio/app/src/main/java/com/example/hangout/ui/screens/LoginScreen.kt:112-121 | an accepted login with an unknown role keeps its token without navigating |
| LoginScreen.Submit | AndroidStudio/app/src/main/java/com/example/hangout/ui/screens/LoginScreen.kt:89-126 | the handler writes the token into the preferences exactly when the decision keeps one, and reports the decided toast and route |
| HangOutApp.HideBottomBar | AndroidStudio/app/src/main/java/com/example/hangout/ui/HangOutApp.kt:48-51 | the bar is hidden exactly when the current route is one of the exact names or starts with a hidden prefix; never without a route |
| HangOutApp.StartHidesBar | AndroidStudio/app/src/main/java/com/example/hangout/ui/HangOutApp.kt:49-62 | the start destination is registered, and it, login and sign-up hide the bar |
| HangOutApp.DetailHidesBar | AndroidStudio/app/src/main/java/com/example/hangout/ui/HangOutApp.kt:50-51 | the admin detail route hides the bar whatever its query |
| HangOutApp.UserScreensShowBar | AndroidStudio/app/src/main/java/com/example/hangout/ui/HangOutApp.kt:49-51 | the user's home, calendar and profile screens keep the bar |
| HangOutApp.RouteName | AndroidStudio/app/src/main/java/com/example/hangout/ui/HangOutApp.kt:65-153 | the name of a route template is its longest prefix free of `/` and `?`, ending where the first separator stands |
| HangOutApp.RouteNameOf | AndroidStudio/app/src/main/java/com/example/hangout/ui/HangOutApp.kt:65-153 | a name followed by a separator and anything else has that name |
| HangOutApp.HideBottomBarFixed | AndroidStudio/app/src/main/java/com/example/hangout/ui/HangOutApp.kt:49-51 | the corrected rule: the route's name, not the whole template, is looked up among the exact names |
| HangOutApp.AdminTemplatesShowBar | AndroidStudio/app/src/main/java/com/example/hangout/ui/HangOutApp.kt:49-51 | as written, the seven admin screens registered with an argument keep the bar although their names are listed as hidden |
| HangOutApp.FixedHidesAdminTemplates | AndroidStudio/app/src/main/java/com/example/hangout/ui/HangOutApp.kt:49-51 | under the corrected rule those seven screens hide the bar |
| HangOutApp.FixedAgreesWithoutArguments | AndroidStudio/app/src/main/java/com/example/hangout/ui/HangOutApp.kt:49-51 | on a route without arguments the corrected rule decides as the written one |
| HangOutApp.StringArg | AndroidStudio/app/src/main/java/com/example/hangout/ui/HangOutApp.kt:73 | a string argument is its value in the bundle, else "" |
| HangOutApp.InitialRatingArg | AndroidStudio/app/src/main/java/com/example/hangout/ui/HangOutApp.kt:92 | the rating argument is 5 only without a bundle, the stored integer when present, and 0 when the bundle lacks it |
| HangOutApp.ReviewScreenStartRating | AndroidStudio/app/src/main/java/com/example/hangout/ui/HangOutApp.kt:92 | the review screen starts at 5 stars without a bundle, at 1 when the bundle lacks the rating, and at the route's rating when it is 1 to 5 |
| BottomNavBar.Selected | AndroidStudio/app/src/main/java/com/example/hangout/ui/components/BottomNavBar.kt:27-31 | an item is selected exactly when the current route starts with its route, and never without a route |
| BottomNavBar.OnClick | AndroidStudio/app/src/main/java/com/example/hangout/ui/components/BottomNavBar.kt:35-42 | a click navigates exactly when its item is not selected, to the item's route, popping up to the start with state saved, single-top and restoring state |
| BottomNavBar.NoRouteNoSelection | AndroidStudio/app/src/main/java/com/example/hangout/ui/components/BottomNavBar.kt:31-36 | without a current route every click navigates |
| BottomNavBar.OwnRouteSelectsItself | AndroidStudio/app/src/main/java/com/example/hangout/ui/components/BottomNavBar.kt:17-31 | on an item's own route exactly that item is selected, and clicking it does nothing |
| BottomNavBar.ProfileRouteUnregistered | AndroidStudio/app/src/main/java/com/example/hangout/ui/components/BottomNavBar.kt:19 | the home and calendar routes are registered, the profile item's "mi_perfil" is not |
| BottomNavBar.MiPerfilUnregistered | AndroidStudio/app/src/main/java/com/example/hangout/ui/components/BottomNavBar.kt:19 | no destination is registered as "mi_perfil" |
| BottomNavBar.FixedItemsRegistered | AndroidStudio/app/src/main/java/com/example/hangout/ui/components/BottomNavBar.kt:17-19 | with the profile item on "datos_perfil" every item leads to a registered destination, and each route selects only its own item |

## Left out

- **Compose UI.** Layout, theming, images, dialogs, toasts and snackbars are not modelled. Only the text a toast or error shows and the navigation a screen asks for are kept. Coroutines, `LaunchedEffect` scheduling and `async`/`awaitAll` concurrency are sequential steps here.
- **Transport.** Retrofit, OkHttp and `requests` calls are given outcomes (`Http.Call`, `Service.Response`). `network/ApiService.kt` and `network/RetrofitInstance.kt` are not part of this model.
- **Parsers and codecs as parameters.** Text parsing is a parameter: `JSONObject(text)`, `JSONArray(text)`, Gson `fromJson`/`toJson`, `SimpleDateFormat` parsing and formatting, Base64, `Uri.encode`/`Uri.decode`. Its results are taken as given. The JSON lexer and printer are not modelled beyond `Json.Render` of a tree.
- **Floating point.** `toFloatOrNull`/`toDoubleOrNull` are a parameter `parse: string -> Option<real>`. `formatRating`, `String.format("%.0f €")` and currency formatting are left out. Prices are exact reals compared with `==`, not `Float`/`Double` with their rounding.
- **Characters.** Whitespace and digits are ASCII only: whitespace is the space, U+0009..U+000D and U+001C..U+001F, so the no-break space U+00A0 and other Unicode spaces that Kotlin's `isWhitespace` and Python's `strip` accept are not whitespace here. Lowercasing and accent stripping (`lowercase()`, NFD and the removal of combining marks) cover ASCII and the Latin-1 letters, not all of Unicode.
- **Establecimiento lists.** `models/Establecimiento.kt` types `ofertas` and `eventos` as lists of records. The screens only ever use their ids, so `Models.Establecimiento` keeps id lists. The class also declares no `id` property, though `DatosEstablecimientoScreen.kt:467` reads `est.id`; `Models.Establecimiento.Id` reads it as `_id?.$oid ?: ""`, as `Evento.id` is defined.
- Json.OptInt: a numeric string is not coerced to a number, unlike org.json's `optInt`/`getInt`/`optDouble`/`getDouble`. Such a value gives the fallback (or a failed decode in `InicioUsuarioScreen.RankedOf`).
- Json.Truncate: `Double.toInt()` is truncation toward zero on unbounded integers. Saturation at the 32-bit `Int` bounds is not modelled.
- Service.PyTypeName: `str()` and `type().__name__` of a request value are read off the JSON tree, not taken from Python's object model.
- **Flask services.** The `photos.save` file name, the marshmallow schemas and their messages, and the Mongo models (`save`, `delete`, lookups) are parameters or given `Service.Attempt` outcomes.
  - A `ValidationError` is a flat list of field messages. Nested-dict messages are not modelled.
  - `request.get_json()` raising `BadRequest` on a body that is not JSON is not modelled.
  - In `establecimiento_service.py`, a JSON request body that is not an object is not modelled.
  - `str(HTTPError)` is the given text `Service.Response.errorText`.
- **Handlers outside the core.** The GET, PUT and filter routes of both services, and `uploads_config.py`, are not part of this model.
- **Uncaught exceptions.** Where a screen's effect does not catch, the method returns `crashed`, which is true exactly when the source throws out of the effect. The state after a crash is only what the code ran before the throw. What the app does after a crash is not modelled.
- AdminDatosEstablecimientoScreen.Shown: a fetch that throws is skipped like a failed one. In the source, `awaitAll` at `DatosEstablecimientoScreen.kt:160` and `:167` rethrows it, so the screen crashes and the row is not replaced.
- Http.Call: `Threw` always carries a message text. A null `e.message` is not modelled, so neither are the fallbacks `"Error desconocido"` (`CrearReviewScreen.kt:152`, `DatosPerfilScreen.kt:85`) and `"Error al cargar perfil"` (`EditarPerfilScreen.kt:132`).
- Json.Render: only `"` and `\` are escaped. Android's JSON printer also writes `/` as `\/` and escapes control characters; these escapes are not modelled.
- DatosEventosScreen.ContentOf: `Models.Evento.imagenUrl` is never null, as `models/Evento.kt` declares. The default picture that `DatosEventosScreen.kt:77` uses when Gson leaves `imagen_url` null is not modelled.
- **Screens not modelled.** `DatosActividadScreen.kt`, `DatosEventoScreen2.kt` and `DatosOfertasScreen.kt` are not part of this model. Their `buildImageUrl` copies are the variants in `Urls`, and their other helpers are date or currency formatting. `RegistroScreen.kt`, `InicioScreen.kt`, `MainActivity.kt`, `navigation/UserNavHost.kt`, the display-only components and the `viewmodels` are not part of this model either.
- **Corrected definitions.** The service handlers (`EstablecimientoService.AddItem`, `AdministradorEstablecimientosService.ForwardReply`) use the corrected `Service.HttpErrorStatus`. The as-written expression is kept as `Service.HttpErrorStatusAsWritten` (see Findings).
- EditarEventoScreen.EditarEvento.Load: the date field is filled through the corrected `EditarEventoScreen.LoadedFecha`, so it shows the stored date. As written, `EditarEventoScreen.kt:81` always leaves the field empty; `EditarEventoScreen.LoadedFechaAsWrittenIsEmpty` states this (see Findings).

## Findings

| source | as written | input that shows it | evidently intended | confidence | as-written member | corrected member |
|---|---|---|---|---|---|---|
| api/src/services/establecimiento_service.py:156,194 | the non-JSON `HTTPError` branch answers `e.response.status_code if e.response else 500` | a backend answer with status 404 and a non-JSON body: `raise_for_status()` raises, `bool(e.response)` is `response.ok`, which is false, so the reply is 500 | pass on the backend's status (`e.response is not None`) | high, not executed | Service.HttpErrorStatusLost | EstablecimientoService.AddItem |
| api/src/services/administrador_establecimientos_service.py:143 | a forwarding `HTTPError` answers `e.response.status_code if e.response else 502` | a forwarded answer with status 400: the response is false, so the reply is 502 | the backend's status | high, not executed | Service.HttpErrorStatusLost | AdministradorEstablecimientosService.ForwardReply |
| AndroidStudio/app/src/main/java/com/example/hangout/ui/HangOutApp.kt:49-51 | the exact-name set lists `crear_evento`, `editar_oferta` and other names, but those screens are registered as templates with an argument, and the current route is the template | current route `crear_evento/{establecimientoId}`: not in the set, no hidden prefix, so the bar is shown | compare the route's name | high, not executed | HangOutApp.AdminTemplatesShowBar | HangOutApp.FixedHidesAdminTemplates |
| AndroidStudio/app/src/main/java/com/example/hangout/ui/components/BottomNavBar.kt:19 | the profile item navigates to `mi_perfil` | clicking "Perfil": no destination `mi_perfil` is registered in `HangOutApp.kt` | the registered profile route `datos_perfil` | high, not executed | BottomNavBar.ProfileRouteUnregistered | BottomNavBar.FixedItemsRegistered |
| AndroidStudio/app/src/main/java/com/example/hangout/ui/screens/admin/EditarEventoScreen.kt:81 | the date field starts as `extractDateYMD(e.fecha_evento)`, but `fecha_evento` is a `FechaWrapper`, neither a `String` nor a `Map`, so the result is null | any loaded event with `fecha_evento = {"$date": "2025-01-02T00:00:00Z"}`: the field starts empty | read the wrapper's `$date` | high, not executed | EditarEventoScreen.LoadedFechaAsWrittenIsEmpty | EditarEventoScreen.LoadedFechaShowsDate |
| AndroidStudio/app/src/main/java/com/example/hangout/ui/screens/admin/DatosEstablecimientoScreen.kt:247-250 | cards come from `mapNotNull` over the fetched bodies but open `ofertasIds.getOrNull(idx)` | ids `["a","b"]`, fetch of "a" fails: the first card shows offer "b" and opens "a" | keep each id with its body | high, not executed | AdminDatosEstablecimientoScreen.CardTargetShifted | AdminDatosEstablecimientoScreen.CardTargetFixedSpec |
