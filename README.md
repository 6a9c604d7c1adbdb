# Smart Unit Converter — a Dafny model

This project models the logic of two versions of a Streamlit unit-converter
script:

- `unit_converter.py` converts in eight categories: Length, Weight, Time,
  Energy, Currency, Temperature, Speed and Volume.
- `assignment1.py` converts in three: Length, Weight and Time.

Each script has a pure `convert(category, unit, value)`. It dispatches on the
category label and the direction label, emoji included, and returns a number
or `None`. Each script also keeps a session-scoped history list: the list is
created when missing, gets one entry after each successful conversion of a
positive value, is shown as its last five entries, and is emptied by
"Clear History". `unit_converter.py` also writes the last five entries into a
PDF report, and removes non-ASCII characters from them first with
`remove_emojis`.

Modules:

- `Wrappers`: `Option`, which stands for Python's number-or-`None` results.
- `PyOps`: the Python built-ins the scripts use. These are `sub in s` on
  strings (`Contains`), `dict.get` (`Get`, `GetOr`) and the slice `s[start:]`
  (`SliceFrom`).
- `Labels`: the category and direction labels, and the Time table that both
  scripts build.
- `Ascii`: `remove_emojis`, modelled as Python runs it: `encode('ascii', 'ignore')`
  into bytes, then `decode('ascii')`.
- `Ledger`: the session's history as a class `Session`. Its field
  `present: bool` records whether the "history" key exists. Its field
  `history: seq<string>` is the list. Its methods are `Init`, `Append`,
  `Recent` and `Clear`.
- `SmartConverter`: `unit_converter.py`. It holds `Convert`, the `units`
  table, the report loop, `ConvertAndRecord` (one press of "Convert Now") and
  `Rerun` (one run of the script, as far as the history is concerned).
- `BasicConverter`: `assignment1.py`, with the same parts except the report.

Values are Dafny `real`s. Every constant is therefore exact, and every
formula is a linear or affine map.

How the code differs from what the labels suggest:

- Length, Weight and Energy test whether a word occurs in the label
  (`"Kilometers" in unit`). The reverse labels contain that word too, so
  both listed directions multiply. These three categories never give `None`,
  and none of them round-trips. For Length and Weight the `else` branch
  shows that the reverse label was meant to divide. For Energy the
  correction follows 1 kJ = 1000 J instead: "Kilojoules ➡️ Joules" keeps the
  multiplication and "Joules ➡️ Kilojoules", the first listed label, divides.
  The model follows the code, and "## Findings" gives the correction.
- A label from another category is not "unsupported" in those three
  categories. `convert(Length, "Celsius ➡️ Fahrenheit", 5)` divides 5 by
  0.621371 instead of giving `None`.
- Currency uses the rate 1 for any label other than its two own labels. It
  returns the value unchanged and never gives `None`.
- In `assignment1.py` the history list is created after the conversion has
  been handled (lines 79-80, after line 74). An append therefore relies on an
  earlier run of the script. `BasicConverter.Rerun` requires the list to
  exist when "Convert Now" is pressed, and every run leaves the list in place.

## Model

| member | source | states |
|---|---|---|
| `SmartConverter.Convert` | unit_converter.py:66-101 | the result is a number exactly when `Handles(category, unit)`: Length, Weight, Energy and Currency accept any label; Time, Temperature, Speed and Volume accept only their own labels, spelled exactly; any other category gives `None` |
| `SmartConverter.CategoriesHaveUnits` | unit_converter.py:38-57 | the categories of the drop-down are exactly the keys of `units` |
| `SmartConverter.ListedDirectionsConvert` | unit_converter.py:44-101 | every direction `units` offers for a category converts to a number |
| `SmartConverter.KeywordDecides` | unit_converter.py:67-82 | in Length, Weight and Energy a nonzero value is multiplied by 0.621371, 2.20462 or 1000 exactly when the label contains "Kilometers", "Kilograms" or "Joules", and divided exactly when it does not |
| `SmartConverter.ReverseLabelsMultiply` | unit_converter.py:44-82 | both listed directions of Length, of Weight and of Energy give the same product: the reverse labels multiply as well (the statement the first two Findings rows cite; the three lemmas below are its steps) |
| `SmartConverter.LengthLabelsMultiply` | unit_converter.py:67-68 | both Length labels contain "Kilometers", so both multiply by 0.621371 |
| `SmartConverter.WeightLabelsMultiply` | unit_converter.py:69-70 | both Weight labels contain "Kilograms", so both multiply by 2.20462 |
| `SmartConverter.EnergyLabelsMultiply` | unit_converter.py:81-82 | both Energy labels contain "Joules", so both multiply by 1000 |
| `SmartConverter.ForeignLabelDivides` | unit_converter.py:67-68 | Length with the label "Celsius ➡️ Fahrenheit" and value 5 gives 5 / 0.621371, not `None` |
| `SmartConverter.CurrencyRates` | unit_converter.py:83-85 | USD→EUR multiplies by 0.85 and EUR→USD by 1.18; any other label returns the value unchanged |
| `SmartConverter.Landmarks` | unit_converter.py:66-90 | 0 °C gives 32 °F, 32 °F gives 0 °C, 2 hours give 120 minutes, 10 km give 6.21371 miles, 0 pounds give 0 kg |
| `SmartConverter.TimeRoundTrip` | unit_converter.py:71-80 | each opposite pair of Time directions, in either order, gives the value back |
| `SmartConverter.RoundTrip` | unit_converter.py:71-100 | for Time, Temperature, Speed and Volume, converting in one listed direction and back in the opposite one gives the value back exactly |
| `SmartConverter.RoundTripBroken` | unit_converter.py:66-85 | for Length, Weight, Energy and Currency, converting there and back changes every nonzero value (the statement the second Findings row cites; the two lemmas below are its steps) |
| `SmartConverter.KeywordRoundTripBroken` | unit_converter.py:67-82 | a Length, Weight or Energy round-trip multiplies a nonzero value by the square of the factor, so it changes the value |
| `SmartConverter.CurrencyRoundTripBroken` | unit_converter.py:83-85 | a Currency round-trip multiplies a nonzero value by 0.85 × 1.18, so it changes the value |
| `SmartConverter.ConvertIntended` | unit_converter.py:66-82 | the corrected conversion: the label's source unit picks the direction. It converts exactly the pairs `Convert` converts |
| `SmartConverter.IntendedAgreesElsewhere` | unit_converter.py:71-101 | outside Length, Weight and Energy the corrected conversion equals `Convert` |
| `SmartConverter.IntendedKeepsForward` | unit_converter.py:67-82 | the corrected conversion keeps the products of Kilometers ➡️ Miles (× 0.621371), Kilograms ➡️ Pounds (× 2.20462) and Kilojoules ➡️ Joules (× 1000) |
| `SmartConverter.IntendedChangesReverse` | unit_converter.py:67-82 | the corrected conversion divides for Miles ➡️ Kilometers (÷ 0.621371), Pounds ➡️ Kilograms (÷ 2.20462) and Joules ➡️ Kilojoules (÷ 1000) |
| `SmartConverter.IntendedKeywordRoundTrip` | unit_converter.py:67-82 | with the correction, the Length, Weight and Energy pairs round-trip exactly |
| `SmartConverter.IntendedRoundTrip` | unit_converter.py:66-100 | with the correction, every opposite pair except Currency round-trips exactly |
| `SmartConverter.ReportLines` | unit_converter.py:125-128 | one report line per record, in order, each "History: " followed by the record with its non-ASCII characters removed; every line is ASCII |
| `SmartConverter.ConvertAndRecord` | unit_converter.py:104-142 | a value ≤ 0 is rejected and a failed conversion is reported, both with the history unchanged; a success appends exactly one entry at the end and returns the report lines of the last five entries |
| `SmartConverter.Rerun` | unit_converter.py:12-151 | one script run: the list is created only if missing, the conversion's entry is appended, the last five entries are shown before any clear, and "Clear History" leaves the list empty |
| `BasicConverter.Convert` | assignment1.py:48-63 | the result is a number exactly when the category is Length or Weight, or Time with one of its six labels; any other category gives `None` |
| `BasicConverter.CategoriesHaveUnits` | assignment1.py:32-42 | the categories of the drop-down are exactly the keys of `units` |
| `BasicConverter.ListedDirectionsConvert` | assignment1.py:34-62 | every direction `units` offers for a category converts to a number |
| `BasicConverter.AgreesWithSmartConverter` | assignment1.py:48-63 | Length, Weight and Time convert as in unit_converter.py; every other category, Energy included, gives `None` |
| `BasicConverter.ReverseLabelsMultiply` | assignment1.py:34-52 | both Length directions and both Weight directions give the same product |
| `BasicConverter.RoundTrip` | assignment1.py:48-62 | Time pairs give the value back; Length and Weight pairs change every nonzero value |
| `BasicConverter.ConvertIntended` | assignment1.py:48-52 | the corrected conversion: the label's source unit picks the direction. It converts exactly the pairs `Convert` converts |
| `BasicConverter.IntendedRoundTrip` | assignment1.py:48-62 | with the correction, every listed opposite pair round-trips exactly |
| `BasicConverter.ConvertAndRecord` | assignment1.py:66-76 | a value ≤ 0 is rejected and a failed conversion is reported, both with the history unchanged; a success appends exactly one entry; the list must already exist |
| `BasicConverter.Rerun` | assignment1.py:66-90 | one script run: "Convert Now" needs an existing list; the list is created afterwards if missing; the last five entries are shown before any clear; the list exists after every run |
| `Labels.TimeTable` | unit_converter.py:72-79 | the Time table has exactly the six Time labels as keys; each ÷60 or ÷24 entry times its divisor is the value, and each ×60 or ×24 entry is the value times its factor |
| `PyOps.ContainsAt` | unit_converter.py:68 | an occurrence of the word at a known index makes `word in label` true |
| `PyOps.ContainsTail` | unit_converter.py:68 | a word occurs in any label that ends with it |
| `PyOps.ContainsWitness` | unit_converter.py:68 | a true `word in label` has an index where the word occurs |
| `PyOps.ContainsIff` | unit_converter.py:68 | `word in label` holds exactly when the word occurs at some index of the label |
| `Ledger.Entry` | unit_converter.py:112 | a history entry is laid out as in both scripts (assignment1.py:74 too): the category, " - ", the unit, ": ", the value text, " ➡️ " and the result text, nine characters of separators in all |
| `PyOps.SliceFrom` | unit_converter.py:146 | `s[start:]` is a suffix of `s`; for a negative start −n it holds the last min(n, len(s)) elements |
| `PyOps.LastAfterAppend` | unit_converter.py:146 | after an append, `s[-n:]` is the previous `s[-(n-1):]` followed by the new element |
| `Ledger.Session.constructor` | unit_converter.py:12 | a new session has no "history" key |
| `Ledger.Session.Init` | unit_converter.py:12-13 | afterwards the list exists; an existing list is kept unchanged, and a missing one is created empty |
| `Ledger.Session.Append` | unit_converter.py:112 | adds exactly one entry at the end and leaves the earlier entries unchanged; the list must exist |
| `Ledger.Session.Recent` | unit_converter.py:146 | the last min(n, length) entries, oldest first; as in Python, n = 0 gives the whole list |
| `Ledger.Session.Clear` | unit_converter.py:151 | the list exists and is empty afterwards, including when it was already empty |
| `Ledger.RecentAfterAppend` | unit_converter.py:146 | appending slides the five-entry window: a full window loses its oldest entry, and the new entry is always shown last |
| `Ascii.EncodeIgnore` | unit_converter.py:116 | `encode('ascii', 'ignore')` gives no more bytes than there are characters, all below 128 |
| `Ascii.Decode` | unit_converter.py:116 | `decode('ascii')` succeeds exactly when every byte is below 128, and then gives an ASCII string of the same length |
| `Ascii.DecodeAt` | unit_converter.py:116 | each decoded character has the code of its byte |
| `Ascii.RemoveEmojis` | unit_converter.py:115-116 | the decode never fails; the result is ASCII and no longer than the input |
| `Ascii.EncodeConcat` | unit_converter.py:116 | encoding a concatenation encodes each part |
| `Ascii.DecodeConcat` | unit_converter.py:116 | decoding a concatenation of ASCII bytes decodes each part |
| `Ascii.RemoveEmojisConcat` | unit_converter.py:115-116 | cleaning a concatenation cleans each part, so the input's characters keep their order |
| `Ascii.RemoveEmojisChar` | unit_converter.py:115-116 | a single ASCII character is kept, and any other character is dropped |
| `Ascii.RemoveEmojisAscii` | unit_converter.py:115-116 | an all-ASCII text comes back unchanged |
| `Ascii.RemoveEmojisIdempotent` | unit_converter.py:115-116 | cleaning twice is the same as cleaning once |

## Findings

| source | as written | input that shows it | evidently intended | confidence | as-written member | corrected member |
|---|---|---|---|---|---|---|
| unit_converter.py:68-70 | `"Kilometers" in unit` and `"Kilograms" in unit` pick the multiplication, and the reverse labels "Miles ➡️ Kilometers" and "Pounds ➡️ Kilograms" contain those words | Length, "Miles ➡️ Kilometers", 1 gives 0.621371 instead of about 1.609 | the reverse direction divides, as the `else` branch does | high; not executed | `SmartConverter.ReverseLabelsMultiply` | `SmartConverter.IntendedKeywordRoundTrip` |
| unit_converter.py:82 | `"Joules" in unit` is true for both Energy labels, so both multiply by 1000 | Energy, "Joules ➡️ Kilojoules", 1000 gives 1000000 and converting back gives 1000000000 | joules to kilojoules divides by 1000, and kilojoules to joules multiplies by 1000; besides replacing the word test with a test of the label's source unit, this reverses the factor's direction relative to the other two categories, since here the first listed label is the one that divides | medium; not executed | `SmartConverter.RoundTripBroken` | `SmartConverter.IntendedRoundTrip` |
| assignment1.py:50-52 | the same word tests as unit_converter.py:68-70 | Weight, "Pounds ➡️ Kilograms", 1 gives 2.20462 instead of about 0.4536 | the reverse direction divides | high; not executed | `BasicConverter.ReverseLabelsMultiply` | `BasicConverter.IntendedRoundTrip` |

The corrected conversions are `SmartConverter.ConvertIntended` and
`BasicConverter.ConvertIntended`. Each corrected conversion tests whether the
label starts with the unit being converted from. For Energy it uses
1 kJ = 1000 J. The history methods (`ConvertAndRecord`, `Rerun`) keep the
as-written `Convert`, because they describe what the scripts do. Both
versions convert exactly the same (category, direction) pairs: each ensures
that its result is a number exactly when `Handles` holds. So which
conversions reach the history is the same under either version.

## Left out

- Streamlit widgets and rendering are not modelled. This covers the page
  setup, the drop-downs, the number input, the buttons, the messages, the
  balloons, the subheaders and the footer. The chosen category, direction
  and value, and the button presses, are parameters of `Rerun`. The
  warning, error and success messages become `Ledger.Outcome`.
- The `{value}` and `{result:.2f}` number text of a history entry is Python
  float formatting. The model passes it in as the functions `valueText` and
  `resultText`. Only the layout of the entry around the numbers is modelled
  (`Ledger.Entry`).
- IEEE floating point is not modelled. Values are exact reals, so the
  round-trips hold exactly in this idealisation. With doubles they hold
  only approximately.
- The Lottie animation fetch (`requests.get`) is network I/O and is not
  modelled.
- PDF generation is left out: the FPDF page, the font, the title cell, the
  file write and the download button. Only the text of the report's history
  lines is modelled (`SmartConverter.ReportLines`).
- The commented-out `convert_units` code at the end of both files is dead
  code.
- Python strings can hold lone surrogate code points, which Dafny characters
  cannot. `remove_emojis` drops them anyway, so this makes no difference to
  the result.
- `units[category]` would raise `KeyError` for a category outside the
  table. This cannot happen with the drop-down. The model states only that
  the drop-down's categories are exactly the table's keys.
