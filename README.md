# Fuel-invoice extraction engine, modelled in Dafny

The repository reads fuel-card invoices in PDF form from four Italian vendors
(IP Plus, Esso, Q8 and Tamoil) and turns each into an invoice header plus a
list of refuelling transactions. This project models the extraction engine
under `extractors/`:

- **Line reconstruction** (`Lines`). Each extractor groups the words of a page
  by their rounded vertical position. It visits the rows in ascending order,
  joins the words of a row with single spaces, strips the result and skips
  blank lines. `GroupRows` and `PageLines` are loops over the words, proved
  against the specification functions `TextsInRow`, `RowKeys` and
  `PageLinesSpec`.
- **The European number reader** (`Numbers`). `normalizza_numero` strips the
  string, deletes the thousand dots, turns the comma into a point and hands
  the result to Python's `float`, with 0.0 for the empty string and for
  anything `float` refuses. It also covers the `re.findall` scans that pick
  amounts out of a line.
- **Plate markers** (`Plates`). These are the leftmost-match searches for
  `TARGA`, `TARGA/NOME`, `Targa` and `Carta:` followed by an Italian plate
  (`[A-Z]{2}\d{3}[A-Z]{2}`).
- **The four vendor grammars** (`IpExtractor`, `EssoExtractor`,
  `Q8Extractor`, `TamoilExtractor`). Each has its detection markers, its plate
  line, its transaction pattern (lazy groups are found as the leftmost place
  where the rest of the pattern matches), its field conversions and its
  header defaults. `Vendors` dispatches on the vendor.
- **The assembler** (`Assembly`, `Engine`). This is the loop of
  `extract_transactions`:
  - IP, Q8 and Tamoil queue parsed transactions until a plate line arrives.
    The plate line stamps each queued transaction with its plate and hands
    them to the seen-check on the key (data, ora, numero_scontrino).
  - Transactions still queued at the end get the plate "SCONOSCIUTA".
  - Esso instead keeps the plate of the last card line and emits each
    transaction at once.
  - Q8 skips the first two pages and looks for the transaction before the
    plate on the same line.
  - Q8's place search has no word boundary before the site code, so a card,
    ticket or counter token that ends with the site digits starts the match
    inside that token. The model keeps this; `WorkedQ8.PlaceAfterTicket`
    shows a line where it happens.

  `Assembly` states this as a step function over lines, with an invariant.
  The output is the first occurrence of each key among everything offered,
  every output transaction carries a plate (or the sentinel), and no two
  outputs share a key. `Engine.Assembler` is the imperative version: a class
  whose fields are the queue, the seen set, the output list and the current
  plate. Its methods are proved to follow `Assembly` step by step.
- **Packaging** (`Extraction`). `get_pdf_text` and `extract` build the success
  result or the error result.
- **The factory** (`Factory`). It builds the detection text, picks the first
  extractor in the fixed order IP, Esso, Q8, Tamoil whose markers occur,
  flattens the result into the legacy ten-key records, and provides
  `extract_from_pdf`.

`WorkedExamples` proves that the Esso example from the source's own comments,
taken through the whole assembler, gives the expected output. The card line
"Carta: 078 FH682DD …" followed by
"07.10.25 000412 367030 CITTADUCALE 1 gasolio autotrazion 26,58 42,50"
yields exactly one transaction: plate FH682DD, date 07/10/25, time 00:00,
1 km, 26.58 litres for 42.50.

Some things the source does are inputs here:

- The PDF library is a `PdfOutcome`: an opened document of pages (words with
  their integer row key, and the page text) or an unreadable one with its
  error message.
- The clock is the `timestamp` parameter.
- What each vendor's header regexes capture from the document text is the
  `labels` parameter.

## Model

| member | source | states |
|---|---|---|
| Invoice.WithPlate | extractors/ip_extractor.py:93 | stamping a plate sets `targa` and changes no other field, so the deduplication key is unchanged |
| Text.StripSpec | extractors/base_extractor.py:138 | `strip()` leaves no whitespace at either end; it is empty exactly when the input is all whitespace; it returns an already-trimmed string unchanged |
| Text.RStripChar | extractors/ip_extractor.py:180 | `rstrip(',')` gives a prefix that does not end in a comma, and everything removed is commas |
| Text.DeleteChar | extractors/base_extractor.py:140 | `replace('.', '')` leaves no dot and never lengthens the string |
| Text.ReplaceChar | extractors/base_extractor.py:142 | `replace(',', '.')` keeps the length and changes exactly the commas, each into a point |
| Text.TokensOfJoin | extractors/ip_extractor.py:84 | splitting a single-spaced join of words gives back exactly those words |
| Text.StripJoin | extractors/ip_extractor.py:84 | the `strip()` after the join changes nothing, and the line is empty only when the row has no words |
| Text.ContainsAcrossSeparator | extractors/extractor_factory.py:78 | a marker without the separator character that occurs in two texts joined by that separator occurs in one of them |
| Text.JoinAppend | extractors/ip_extractor.py:84 | joining two non-empty word lists with a space is the join of their concatenation |
| Text.JoinWithout | extractors/esso_extractor.py:96 | a character other than the space that no word holds is absent from their join |
| Numbers.UnitPrice | extractors/ip_extractor.py:195 | for a positive quantity the unit price times the quantity is the amount; otherwise the price is 0.0 |
| Numbers.Normalize | extractors/base_extractor.py:124-145 | `normalizza_numero`: the empty string reads as 0.0, and a non-zero reading comes only from a successful parse of the dot-deleted, comma-to-point rewrite of the stripped input |
| Numbers.NormalizeEmpty | extractors/base_extractor.py:135-136 | the empty string reads as 0.0 |
| Numbers.NormalizeTrimmed | extractors/base_extractor.py:134-145 | a string without surrounding whitespace reads as `float` of the dot-deleted, comma-to-point rewrite, or 0.0 when `float` refuses it |
| Numbers.NormalizeWhole | extractors/base_extractor.py:139-143 | digits with thousand dots read as the integer their digits spell |
| Numbers.NormalizeDecimal | extractors/base_extractor.py:139-143 | `a,b` (with thousand dots anywhere) reads as the integer part of `a`'s digits plus `b`'s digits as the fraction |
| Numbers.NormalizeDigitsComma | extractors/base_extractor.py:139-143 | plain `a,b` reads as `a` plus `b` over 10 to the length of `b` |
| Numbers.NormalizeTwoCommas | extractors/base_extractor.py:142-145 | two or more commas become two or more points, which `float` refuses, so the result is 0.0 |
| Numbers.NormalizeStrip | extractors/base_extractor.py:138 | surrounding whitespace never changes the reading: the result equals that of the stripped string |
| Numbers.NormalizeOnlyDots | extractors/base_extractor.py:140-145 | a string of dots becomes empty, which `float` refuses, so the result is 0.0 |
| Numbers.NormalizeManyCommas | extractors/base_extractor.py:142-145 | "1,2,3" reads as 0.0 |
| Numbers.NormalizeThousands | extractors/base_extractor.py:124-145 | "1.234,56" reads as 1234.56 |
| Numbers.NormalizePointIsThousands | extractors/base_extractor.py:140 | "12.34" reads as 1234.0, because a point is always a thousand separator |
| Numbers.NormalizeComma | extractors/base_extractor.py:142 | "26,58" reads as 26.58 |
| Numbers.NormalizeZero | extractors/q8_extractor.py:166 | the fallback "0,00" reads as 0.0 |
| Numbers.PointNumberParses | extractors/base_extractor.py:143 | `float` accepts digits, a point and digits, and gives that decimal value |
| Numbers.TwoPointsRefused | extractors/base_extractor.py:143-145 | `float` refuses a string with two points |
| Numbers.MagnitudeFraction | extractors/base_extractor.py:143 | the unsigned decimal `a.b` has the value `a` plus `b` over 10 to the length of `b` |
| Numbers.DecimalsFrom | extractors/ip_extractor.py:149 | every hit of `findall(\d+,\d+)` is digits, a comma and digits |
| Numbers.NumericRunsFrom | extractors/esso_extractor.py:156 | every hit of `findall([\d,]+)` is a non-empty run of digits and commas |
| Numbers.LastNumericRun | extractors/esso_extractor.py:156-158 | for a line ending in a space and a run of digits and commas, the last `[\d,]+` hit is that run |
| Numbers.LastDecimal | extractors/ip_extractor.py:149-150 | for a line ending in a space and `a,b`, the last `\d+,\d+` hit is `a,b` |
| Numbers.DecimalAt | extractors/q8_extractor.py:160 | at a digits-comma-digits run not followed by a digit, the `\d+,\d+` hits are that run and then the hits after it |
| Numbers.DecimalThenSpace | extractors/q8_extractor.py:160 | at such a run followed by a space, the hits are the run and then the hits after the space |
| Numbers.AmountsFrom | extractors/q8_extractor.py:160 | three such runs one space apart are the next three hits |
| Numbers.LeadingDecimals | extractors/q8_extractor.py:160-168 | on a line whose text before the amounts holds no comma, the first three hits are the three amounts |
| Lines.GroupRows | extractors/ip_extractor.py:78-80 | the map's keys are exactly the row keys of the words, and each row holds its words' texts in page order |
| Lines.TextsOutsideRows | extractors/ip_extractor.py:78-80 | a key that no word has holds no texts |
| Lines.Insert | extractors/ip_extractor.py:83 | inserting into an ascending key list keeps it ascending and adds exactly the new key |
| Lines.SortedKeys | extractors/ip_extractor.py:83 | `sorted(righe.keys())` is ascending and has the same members as its input |
| Lines.RowList | extractors/ip_extractor.py:83 | the rows visited are exactly the row keys of the page |
| Lines.LinesOf | extractors/ip_extractor.py:84-86 | no blank line reaches the line handlers |
| Lines.PageLines | extractors/ip_extractor.py:77-86 | the grouping loop and the row loop produce the lines of the page specification |
| Lines.WordInItsRow | extractors/ip_extractor.py:79-80 | every word's text sits in its own row at the position of its rank among that row's words |
| Lines.RowKeepsOrder | extractors/ip_extractor.py:79-80 | two words of one row keep their page order within the row |
| Lines.LinesOfMembers | extractors/ip_extractor.py:83-86 | every line is the joined row of a visited key, and every non-blank row appears as a line |
| Lines.LinesFollowKeys | extractors/ip_extractor.py:83-84 | lines appear in ascending order of their row keys |
| Lines.SingleSpaced | extractors/ip_extractor.py:84 | a row's line is its words joined by single spaces, and splitting it gives back the words |
| Lines.TextsAreWords | extractors/ip_extractor.py:79-80 | when every extracted word is a non-empty whitespace-free string, so is every row entry |
| Plates.MarkerIndex | extractors/ip_extractor.py:144 | the search position is the leftmost at which marker, whitespace and a plate occur |
| Plates.MarkerPlate | extractors/ip_extractor.py:141-145 | a plate found after a marker is two capitals, three digits, two capitals |
| Plates.MarkerPlateFound | extractors/ip_extractor.py:143-145 | a line holding the marker, a space and a plate always yields a plate |
| Plates.MarkerPlateLeading | extractors/tamoil_extractor.py:95-98 | a line that starts with marker, space and plate yields exactly that plate |
| Plates.CartaIndex | extractors/esso_extractor.py:96 | the card search position is the leftmost where `Carta:`, digits and a plate match |
| Plates.CartaPlate | extractors/esso_extractor.py:96-98 | a plate from a card line has plate shape |
| Plates.CartaLine | extractors/esso_extractor.py:95-98 | "Carta: <digits> <plate>…" yields that plate |
| IpExtractor.CanHandleIff | extractors/ip_extractor.py:19-22 | an IP invoice is exactly a text holding "IP PLUS" or "IP Plus" ("IP PLUS S.R.L" adds nothing) |
| IpExtractor.PlateOf | extractors/ip_extractor.py:141-145 | the plate of a TARGA line has plate shape |
| IpExtractor.PlateLine | extractors/ip_extractor.py:141-145 | a line holding "TARGA", a space and a plate is a plate line |
| IpExtractor.ValidaKm | extractors/ip_extractor.py:152-160 | the kilometres are always between 0 and 10,000,000 |
| IpExtractor.ValidaKmOfShape | extractors/ip_extractor.py:152-158 | a kilometre group of the pattern's shape reads as its digits without dots, or 0 above 10,000,000 |
| IpExtractor.KmShapeDigits | extractors/ip_extractor.py:134 | a kilometre group the pattern accepts is digits once its dots are removed, so `int` never fails on it |
| IpExtractor.ValidaKmExamples | extractors/ip_extractor.py:152-158 | "1" reads as 1 and "1.234" as 1234 |
| IpExtractor.FirstTail | extractors/ip_extractor.py:133-137 | the lazy place group ends at the leftmost token from which kilometres, 0000, GASOLIO and litres follow |
| IpExtractor.Match | extractors/ip_extractor.py:128-138 | a match has a DD/MM/YY date, an HH:MM time, an 8-digit ticket, a 5-digit site code, a non-empty place, kilometres of the pattern's shape and litres of digits and commas |
| IpExtractor.Recognise | extractors/ip_extractor.py:126-139 | the same shape facts for the search over a whole line |
| IpExtractor.MatchLine | extractors/ip_extractor.py:128-138 | every well-formed token sequence is matched with exactly its groups, with or without SELF |
| IpExtractor.RecogniseLine | extractors/ip_extractor.py:126-139 | every well-formed transaction line is recognised with exactly its groups |
| IpExtractor.ImportoFinaleLast | extractors/ip_extractor.py:147-150 | the amount of a line ending in `a,b` is the value of `a,b` |
| IpExtractor.ImportoFinaleNone | extractors/ip_extractor.py:147-150 | a line without any `\d+,\d+` has amount 0.0 |
| IpExtractor.CleanLocalita | extractors/ip_extractor.py:180 | the place is the stripped group with its trailing commas removed: a prefix of the stripped group that is followed only by commas, neither starting with whitespace nor ending in a comma |
| IpExtractor.Parse | extractors/ip_extractor.py:170-199 | the key comes from date, time and ticket; the plate is empty until assigned; the product is GASOLIO SELF exactly when the line contains SELF, and GASOLIO otherwise; the site code is the PV group, the place is the cleaned place group, the km is the validated km group (at most 10,000,000); litres, amount and unit price are the conversions of their groups |
| IpExtractor.Header | extractors/ip_extractor.py:24-60 | the client is always BEEBUS SPA; a found number and date are kept as captured and a found total reads through `normalizza_numero`; each absent label leaves "" or 0.0 |
| EssoExtractor.CanHandleIff | extractors/esso_extractor.py:19-22 | an Esso invoice is exactly a text holding one of its three markers |
| EssoExtractor.PlateOf | extractors/esso_extractor.py:94-99 | the plate of a card line has plate shape |
| EssoExtractor.TailAt | extractors/esso_extractor.py:131-134 | the optional kilometres are digits, and quantity and amount are digits and commas |
| EssoExtractor.PlaceEnd | extractors/esso_extractor.py:130 | the lazy place group is the shortest run of letter tokens after which the rest of the pattern matches |
| EssoExtractor.MatchAt | extractors/esso_extractor.py:127-135 | a match at a position has a DD.MM.YY date, a 6-digit ticket, a numeric site code, numeric kilometres when present, and numeric quantity and amount |
| EssoExtractor.FirstMatchLeftmost | extractors/esso_extractor.py:136 | the unanchored search reports the leftmost position at which the pattern matches |
| EssoExtractor.Recognise | extractors/esso_extractor.py:120-136 | a recognised line has the date, ticket, site-code and quantity shapes of the pattern |
| EssoExtractor.MatchLine | extractors/esso_extractor.py:126-135 | every well-formed token sequence, with the km separate, glued to "gasolio" or absent, is matched with exactly its groups |
| EssoExtractor.RecogniseLine | extractors/esso_extractor.py:120-136 | every well-formed transaction line is recognised with exactly its groups |
| EssoExtractor.LastAmountOfLine | extractors/esso_extractor.py:156-158 | the amount is the value of the last digit-and-comma word of the line |
| EssoExtractor.SlashDate | extractors/esso_extractor.py:142 | the date keeps its length and its non-dot characters, and a DD.MM.YY date becomes DD/MM/YY |
| EssoExtractor.Km | extractors/esso_extractor.py:148-149 | a present km group gives its digit value, an absent one gives 0 |
| EssoExtractor.Parse | extractors/esso_extractor.py:138-179 | the key is the slash date, "00:00" and the ticket; the plate is the current card's; the product is GASOLIO; the site code is the code group, the place is the stripped place group, the km is the km group's value or 0; amount and unit price come from the last number of the line |
| EssoExtractor.Header | extractors/esso_extractor.py:24-62 | absent labels leave their defaults; a found DD.MM.YYYY invoice date becomes DD/MM/YYYY, a found client is stripped, a found number is kept and a found total reads through `normalizza_numero` |
| Q8Extractor.CanHandleIff | extractors/q8_extractor.py:19-22 | a Q8 invoice is exactly a text holding one of its four markers |
| Q8Extractor.PlateOf | extractors/q8_extractor.py:101 | the plate after TARGA/NOME has plate shape |
| Q8Extractor.Match | extractors/q8_extractor.py:139-145 | a match has a 19-digit card, a 5-digit ticket, a DD/MM/YY date, an HHMM time and a three-capital product code |
| Q8Extractor.MatchPrefix | extractors/q8_extractor.py:139-146 | any line starting with those five fields matches them, with the product code the first three capitals of its token |
| Q8Extractor.RecogniseLine | extractors/q8_extractor.py:131-146 | every well-formed transaction line is recognised with exactly its groups |
| Q8Extractor.Clock | extractors/q8_extractor.py:155 | HHMM becomes HH:MM, keeping both halves |
| Q8Extractor.Positional | extractors/q8_extractor.py:160-172 | a figure missing from the line's `\d+,\d+` hits reads as 0.0 |
| Q8Extractor.Product | extractors/q8_extractor.py:184-193 | a known product code maps to its name, and any other code to GASOLIO |
| Q8Extractor.ProductNames | extractors/q8_extractor.py:184-193 | the product is always one of the seven names; GLS is GASOLIO and SSP is BENZINA |
| Q8Extractor.FirstSite | extractors/q8_extractor.py:175 | the site search stops at the leftmost position where code, 4 digits, digits and the site number follow |
| Q8Extractor.CodiceSede | extractors/q8_extractor.py:175-176 | the site code is the group of the leftmost match of code, 4 digits, digits and the site number; "0000" exactly when no position matches; it is always digits or "0000" |
| Q8Extractor.ModeAt | extractors/q8_extractor.py:180 | the lazy place ends at the first SF, SV or PP that is followed by another token |
| Q8Extractor.FirstPlace | extractors/q8_extractor.py:180-181 | the place search stops at the leftmost token ending in the site code that is followed by a place and a pump mode |
| Q8Extractor.Localita | extractors/q8_extractor.py:178-181 | the place is the stripped group of the leftmost match after the site code; SCONOSCIUTA exactly when no position matches |
| Q8Extractor.Parse | extractors/q8_extractor.py:148-212 | the key is date, HH:MM time and ticket; the card number is kept; km is 0; product, amount, quantity, price, site and place come from their searches |
| Q8Extractor.TransactionOfLine | extractors/q8_extractor.py:131-181 | a line printed as card, ticket, date, time, product code, two counters, site, place, pump mode and three amounts is a transaction with exactly those key, card, product, site and place, and the three amounts read through `normalizza_numero`, provided no token before the site code ends with the site digits |
| Q8Extractor.FieldsOfLine | extractors/q8_extractor.py:139-181 | such a line is recognised with its five printed groups, and its site code and place are the printed ones, provided no token before the site code ends with the site digits |
| Q8Extractor.PositionalOfLine | extractors/q8_extractor.py:159-172 | the amount, quantity and price of such a line are its three printed amounts, read through `normalizza_numero` |
| Q8Extractor.SiteOfWords | extractors/q8_extractor.py:175 | the site search fails on the four tokens before the product code and matches at the code, with the printed site |
| Q8Extractor.PlaceOfWords | extractors/q8_extractor.py:180 | the place search fails before the site token and matches there, with the printed place words, provided no token before the site code ends with the site digits |
| Q8Extractor.AmountsOfWords | extractors/q8_extractor.py:160 | the first three `\d+,\d+` hits of such a line are its amount, volume and price |
| WorkedQ8.DocLine | extractors/q8_extractor.py:134 | the documented line is ticket 00002 of 02/10/25 at 08:52, GASOLIO, site 5817, place LOC.ACQUAVIVA S.S. 4 NEROLA, 75.00 for 45.76 litres at 1.639 |
| WorkedQ8.PlaceAfterTicket | extractors/q8_extractor.py:180 | with ticket 05817 and site 5817, the place search matches inside the ticket, so the place is the ten tokens from the date on and not LOC.ACQUAVIVA S.S. 4 NEROLA |
| WorkedQ8.TicketPlace | extractors/q8_extractor.py:180 | on that line the place search fails at the card and matches at the ticket |
| Q8Extractor.Header | extractors/q8_extractor.py:24-58 | the client is the default; a found number and date are kept as captured and a found total reads through `normalizza_numero`; absent labels leave "" or 0.0 |
| TamoilExtractor.CanHandleIff | extractors/tamoil_extractor.py:19-22 | a Tamoil invoice is exactly a text holding "TAMOIL" or "mycard" |
| TamoilExtractor.PlateOf | extractors/tamoil_extractor.py:95 | the plate after "Targa" has plate shape |
| TamoilExtractor.PlateLine | extractors/tamoil_extractor.py:93-98 | a line holding "Targa", a space and a plate is a plate line |
| TamoilExtractor.ProductEnd | extractors/tamoil_extractor.py:147-150 | the lazy product group ends at the leftmost "LT" followed by a quantity and an amount |
| TamoilExtractor.PlaceEnd | extractors/tamoil_extractor.py:142-146 | the lazy place group is the shortest run of capital-and-parenthesis tokens after which authorisation, date, time, km and product follow |
| TamoilExtractor.Match | extractors/tamoil_extractor.py:139-151 | a match has a numeric site and authorisation, a DD/MM/YYYY date, an HH:MM time, numeric km, and quantity and amount of digits and commas |
| TamoilExtractor.MatchLine | extractors/tamoil_extractor.py:139-151 | every well-formed token sequence is matched with exactly its groups |
| TamoilExtractor.RecogniseLine | extractors/tamoil_extractor.py:134-152 | every well-formed transaction line is recognised with exactly its groups |
| TamoilExtractor.Km | extractors/tamoil_extractor.py:167 | "1" means no kilometres entered and reads as 0; any other group reads as its number |
| TamoilExtractor.Parse | extractors/tamoil_extractor.py:154-186 | the key is date, time and authorisation number; place and product are stripped; quantity, amount and unit price are their conversions |
| TamoilExtractor.TransactionOfLine | extractors/tamoil_extractor.py:114-122 | a well-formed transaction line yields a transaction whose fields are its groups, converted |
| TamoilExtractor.Header | extractors/tamoil_extractor.py:24-65 | the client, when found, is stripped; a found number and date are kept as captured and a found total reads through `normalizza_numero`; absent labels leave their defaults |
| Vendors.PlateOf | extractors/ip_extractor.py:89-90 | whatever the vendor, a plate line yields a plate of plate shape |
| Vendors.Candidate | extractors/ip_extractor.py:107-114 | a parsed transaction carries its vendor's name, and only Esso's carries a plate at parse time |
| Vendors.Header | extractors/base_extractor.py:78-86 | every label the document lacks leaves the field's default; a found invoice number is kept and a found total reads through `normalizza_numero` |
| Vendors.KilometreOneDiffers | extractors/tamoil_extractor.py:167 | a kilometre reading of "1" is 1 for IP but 0 for Tamoil |
| Assembly.FirstSeenIndices | extractors/ip_extractor.py:99-101 | the kept positions are ascending, and a position is kept exactly when its key has not occurred before |
| Assembly.DedupSnoc | extractors/ip_extractor.py:99-101 | offering one more transaction appends it exactly when its key is new |
| Assembly.FirstSeenLast | extractors/ip_extractor.py:99 | the newest offer is a first occurrence exactly when its key has not been seen |
| Assembly.DedupDistinct | extractors/ip_extractor.py:99-101 | no two kept transactions share a key |
| Assembly.DedupKeys | extractors/ip_extractor.py:99-101 | every key that was offered is kept once |
| Assembly.FirstOf | extractors/ip_extractor.py:99-101 | every offered transaction has a kept first occurrence with its key, at or before it |
| Assembly.DedupMembers | extractors/ip_extractor.py:101 | everything kept was offered |
| Assembly.Accept | extractors/ip_extractor.py:99-101 | the seen-check records the offer and leaves the queue and the current plate alone |
| Assembly.Plate | extractors/ip_extractor.py:92-93 | stamping the queue gives every entry the plate, keeps its length and changes no other field |
| Assembly.AcceptAll | extractors/ip_extractor.py:92-101 | stamping and offering a queue offers the stamped entries in queue order |
| Assembly.Flush | extractors/ip_extractor.py:92-103 | a plate line offers the stamped queue and empties it |
| Assembly.InitInv | extractors/ip_extractor.py:64-67 | the empty start satisfies the invariant |
| Assembly.AcceptInv | extractors/ip_extractor.py:99-101 | offering a plated transaction keeps output equal to the first occurrences of the offers and the seen set equal to their keys |
| Assembly.AcceptAllInv | extractors/ip_extractor.py:92-101 | offering a queue stamped with a plate (or the sentinel) keeps the invariant |
| Assembly.FlushInv | extractors/ip_extractor.py:92-103 | a plate line keeps the invariant |
| Assembly.Step | extractors/ip_extractor.py:83-114 | a line only ever appends to the offered transactions, and the current plate changes only for Esso, to the plate of its card line |
| Assembly.StepInv | extractors/ip_extractor.py:83-114 | every line, for every vendor, keeps the invariant |
| Assembly.EssoStepInv | extractors/esso_extractor.py:89-116 | every Esso line keeps the invariant, and Esso never queues |
| Assembly.Q8StepInv | extractors/q8_extractor.py:85-119 | every Q8 line keeps the invariant |
| Assembly.QueueStepInv | extractors/ip_extractor.py:83-114 | every IP or Tamoil line keeps the invariant |
| Assembly.RunInv | extractors/ip_extractor.py:69-114 | any sequence of lines keeps the invariant |
| Assembly.FinalInv | extractors/ip_extractor.py:116-122 | after the leftovers the invariant still holds and nothing is queued |
| Assembly.Transactions | extractors/ip_extractor.py:62-124 | `extract_transactions` returns the first occurrence of each key among the transactions offered during the document |
| Assembly.TransactionsFirstSeen | extractors/ip_extractor.py:62-124 | the output is the first occurrence of each key among all transactions offered, and its keys are all the offered keys |
| Assembly.TransactionsDistinct | extractors/ip_extractor.py:62-124 | no two output transactions share (data, ora, numero_scontrino) |
| Assembly.TransactionsPlated | extractors/ip_extractor.py:116-122 | every output transaction carries a plate, or SCONOSCIUTA (never for Esso) |
| Assembly.PlateLineNotParsed | extractors/ip_extractor.py:88-105 | an IP or Tamoil plate line flushes the queue and is not read as a transaction |
| Assembly.TransactionLineQueued | extractors/ip_extractor.py:107-114 | a transaction line without a plate only appends to the queue |
| Assembly.Q8SameLine | extractors/q8_extractor.py:90-119 | a Q8 line that is both a transaction and a plate line queues the transaction first, so it gets that plate |
| Assembly.CloseLeftovers | extractors/ip_extractor.py:116-122 | at the end the queue is offered with plate SCONOSCIUTA; Esso has nothing to close |
| Assembly.EssoCardLine | extractors/esso_extractor.py:96-99 | a card line only sets the current plate |
| Assembly.EssoCurrentIsLastCard | extractors/esso_extractor.py:94-99 | the current plate is that of the last card line read so far |
| Assembly.EssoNoCardNoOutput | extractors/esso_extractor.py:104 | before any card line nothing is output |
| Assembly.EssoCarriesCurrent | extractors/esso_extractor.py:103-114 | a transaction line under a known card is offered at once, carrying that card's plate |
| Assembly.Q8SkipsFirstTwoPages | extractors/q8_extractor.py:67-70 | Q8 reads the lines of every page but the first two |
| Assembly.RunAppend | extractors/ip_extractor.py:69-83 | queue, seen set, output and plate carry over from one page to the next |
| Assembly.RunSnoc | extractors/ip_extractor.py:83-114 | reading one more line is one more step |
| Engine.Assembler.constructor | extractors/ip_extractor.py:64-67 | the queue, seen set and output start empty, with no current plate |
| Engine.Assembler.Offer | extractors/ip_extractor.py:99-101 | the seen-check updates the fields as `Assembly.Accept` says |
| Engine.Assembler.FlushQueue | extractors/ip_extractor.py:92-103 | the loop over the queue updates the fields as `Assembly.Flush` says |
| Engine.Assembler.OnLine | extractors/ip_extractor.py:88-114 | one line updates the fields as the vendor's `Assembly.Step` says |
| Engine.Assembler.Finish | extractors/ip_extractor.py:116-122 | the leftovers loop updates the fields as `Assembly.Close` says |
| Engine.OnLines | extractors/ip_extractor.py:83-114 | the line loop of a page updates the fields as `Assembly.Run` says |
| Engine.ExtractTransactions | extractors/ip_extractor.py:62-124 | the page loop returns `Assembly.Transactions`, so it inherits every property proved of it |
| Extraction.AllTextAppend | extractors/base_extractor.py:158-161 | the text of a document is the text of its first pages followed by that of the rest |
| Extraction.TextlessPage | extractors/base_extractor.py:160 | a page without text adds nothing |
| Extraction.GetPdfText | extractors/base_extractor.py:147-161 | the loop returns the page texts run together |
| Extraction.Extract | extractors/base_extractor.py:57-121 | on success: the header through the labels, the transactions of the document, their count and the header total. On an unreadable document: error status, empty invoice, zero count and total, and the prefixed message |
| Extraction.SuccessResult | extractors/base_extractor.py:78-97 | a success result's records have pairwise distinct keys, and its total is 0.0 when the total label is absent |
| Factory.DetectionTextAppend | extractors/extractor_factory.py:71-80 | the detection text of a document is that of its first pages followed by that of the rest |
| Factory.MarkerOnAnyPage | extractors/extractor_factory.py:75-78 | a marker on any one page is found in the detection text |
| Factory.MarkerOnSomePage | extractors/extractor_factory.py:75-78 | conversely, a non-empty marker without a newline found in the detection text is written on one page |
| Factory.ExtractTextFromPdf | extractors/extractor_factory.py:60-80 | the loop returns each non-empty page text followed by a newline |
| Factory.Rank | extractors/extractor_factory.py:20-25 | every vendor has its place in the order IP, Esso, Q8, Tamoil |
| Factory.FirstHandler | extractors/extractor_factory.py:46-49 | the chosen index accepts the text and no earlier one does; none is chosen only when none accepts |
| Factory.ChooseFirstMatch | extractors/extractor_factory.py:45-55 | the chosen vendor accepts the text and every vendor ahead of it refuses; no choice means no vendor accepts |
| Factory.ChosenIff | extractors/extractor_factory.py:46-49 | a vendor that accepts is chosen exactly when every vendor ahead of it refuses |
| Factory.IpWinsTies | extractors/extractor_factory.py:20-25 | a text carrying an IP marker goes to IP whatever else it carries |
| Factory.GetExtractor | extractors/extractor_factory.py:27-58 | returns the chosen vendor, fails with the "not recognised" message when none accepts, and fails with the library's message when the PDF cannot be read, both prefixed |
| Factory.LegacyKeepsKey | extractors/extractor_factory.py:118-129 | two transactions share a key exactly when their legacy records share date, time and ticket |
| Factory.ConvertToLegacy | extractors/extractor_factory.py:104-141 | one legacy record per transaction, in order, and the result's other fields copied |
| Factory.ExtractFromPdf | extractors/extractor_factory.py:82-102 | the vendor chosen by the detection text extracts the document; the legacy records are its transactions, in order, counted, with pairwise distinct date, time and ticket; the total amount is the header's invoice total and the message is None |
| WorkedExamples.CardPlate | extractors/esso_extractor.py:95-98 | "Carta: 078 FH682DD 7033166200912540788" yields plate FH682DD |
| WorkedExamples.NoColonNoCard | extractors/esso_extractor.py:96 | a line without a colon is never a card line |
| WorkedExamples.TransactionMatch | extractors/esso_extractor.py:123 | the documented transaction line is recognised with its seven groups |
| WorkedExamples.TransactionNoCard | extractors/esso_extractor.py:96-97 | the documented transaction line is not a card line |
| WorkedExamples.LastWordAmount | extractors/esso_extractor.py:156-158 | the amount of a line of words ending in an amount is read from that last word |
| WorkedExamples.TransactionAmount | extractors/esso_extractor.py:154-158 | the documented line's amount is 42.50 |
| WorkedExamples.TransactionParsed | extractors/esso_extractor.py:138-179 | under plate FH682DD the documented line parses to date 07/10/25, time 00:00, ticket 000412, 1 km, 26.58 litres, 42.50 |
| WorkedExamples.CardThenLine | extractors/esso_extractor.py:94-114 | from the start, a card line and then a line read under its plate output exactly that line's transaction |
| WorkedExamples.EssoCardThenTransaction | extractors/esso_extractor.py:95-123 | the documented card and transaction lines output exactly one transaction, with the expected fields |

## Left out

- Header regexes: what each vendor's label patterns capture from the document text is the `labels` parameter. Only the defaults and the post-processing of the captured groups are modelled: `normalizza_numero`, the Esso date rewrite and client strip, the Tamoil client strip, and Esso's `TOTALE:` triple taken as three hits.
- pdfplumber: documents, pages, words and page texts are inputs. Word positions arrive as integer row keys, so the banker's rounding of `round(w["top"])` is not modelled. Any failure to open a document is the `Unreadable` outcome with its message.
- `datetime.now().isoformat()` is the `timestamp` parameter.
- Exceptions other than an unreadable document are not modelled. This includes a parse raising inside `extract_transactions` (the groups the patterns accept always convert; `IpExtractor.KmShapeDigits` shows this for the kilometres) and pydantic's validation of the records.
- `get_extractor` and `extract_from_pdf` raise `ValueError`; here they return a `Failure` carrying the same message. An unreadable document fails already at identification, so `extract_from_pdf` never reaches the error result of `extract`.
- IpExtractor.Recognise: matching works over the whitespace tokens of the line, not its characters. The row reconstruction produces single-spaced lines, on which this agrees with the pattern wherever a group is bounded by `\s` (`Text.TokensOfJoin`). The trailing group that the pattern leaves open is the digit-and-comma prefix of its token. Words that themselves contain whitespace are outside the model (the premise of `Lines.SingleSpaced`).
- EssoExtractor.Recognise: the same token reading. The unanchored date is the last eight characters of a token, and the place name is a run of whole letter tokens. `IGNORECASE` is modelled for the product words and for the letters of the place name only, and with ASCII case folding only (Python also folds 'ı', 'ſ' and the Kelvin sign).
- TamoilExtractor.Recognise: the same token reading; the amount is the digit-and-comma prefix of its token.
- Q8Extractor.Recognise: the same token reading; the product code is the first three capitals of its token.
- IpExtractor.ValidaKm: `int()` also accepts a sign, surrounding whitespace and underscores between digits; the model reads those forms as 0, so the negative result Python gives for `-5` is not modelled. Only groups of digits and dots matched by the kilometre pattern reach it.
- Q8Extractor.Localita: the place is read over the line's whitespace tokens, so a run of several spaces inside the place name becomes one space.
- `\d` is read as the ASCII digits; Python also accepts other Unicode decimal digits.
- Numbers.UnitPrice: the division is stated over the reals. The rounding of IEEE-754 doubles, here and in `float`, is not modelled.
- `float` is modelled for an optional sign, digits and an optional point with digits. Its other accepted forms (exponents, `inf`, `nan`, underscores between digits) read as 0.0 here. A normalised invoice figure never takes those forms.
- Dead code is not modelled: the `targa_corrente` assignments of IP, Q8 and Tamoil, which are never read; `_determina_tipo_gasolio`, whose result is overwritten; and Esso's empty first-page branch.
- Q8's `numero_carta` is kept as an optional field of every transaction.
- `Assembly`'s record of every transaction offered to the seen-check is ghost state. The source keeps no such list; the model needs it to state the output as first occurrences.
- The `.+?` groups cannot cross a newline. Lines never contain one, so this is not modelled.
- main.py, test_api.py, the models package and extractors/__init__.py are not part of this model.
