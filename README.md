# Divoom plant monitor: rotation and composition core

A Dafny model of the decision logic of a plant-humidity monitor that reads
soil-humidity samples from a Prometheus server and shows them one plant at a
time on a 64×64 Divoom Pixoo display.

- `Display` (`src/display_manager.py`) models the choices made before any
  pixel is drawn. It decides the status text (`ERR` in red for an offline
  sensor, else `"<humidity>%"`) and the humidity colour (static, or
  low/normal/high against the two thresholds). It also builds the date string
  from the Russian month table, picks the background image over the extension
  chain with a black-canvas fallback, and picks the font over the chain
  custom path → system fonts → built-in default. It lists the text layers of
  a frame, and says when `display_plant` reports success.
- `Prometheus` (`src/prometheus_client.py`) models URL normalisation, when a
  query response is accepted, threshold-map building (later entries overwrite
  earlier ones, and a bad threshold value escapes as an exception), and
  plant-record assembly with per-field defaults, in sample order, skipping
  samples whose value list is too short or whose value the parse rejects. A
  `value` key that holds null raises a TypeError that nothing catches.
- `Rotation` (`main.py`) models the main loop as a `Controller` class whose
  `Tick` is proved against the pure transition `Step`. It covers the refresh
  condition, backoff on an empty refresh, the index reset, the modular
  advance, and the two ways the loop ends.
- `Text` renders integers in decimal as Python does and proves that the
  rendering parses back. `Wrappers` holds `Option`, `Result` and the modelled
  exceptions.

In four places the code does something a reader might not expect, and the
model follows the code:

- A refresh that returns no plants does not keep the previous list. `main.py`
  overwrites it with `[]`, sleeps 10 s and fetches again.
- A failed humidity query is not the only way to get the empty list: a
  successful one with no samples, or one whose every sample is skipped, gives
  it too. A threshold value that fails to parse raises out of
  `get_plant_humidity`, and the loop then exits with status 1.
- The colour resolver returns only a colour. The level exists only in a log
  line.
- `create_plant_image` raises on a missing required config key. The exception
  is caught in `display_plant`, not in the compositor.

## Model

| member | source | states |
|---|---|---|
| `Text.NatToDecimal` | src/display_manager.py:179 | the day renders as a non-empty digit string without a leading zero |
| `Text.IntToDecimal` | src/display_manager.py:244 | a reading renders with a leading minus exactly when it is negative, digits otherwise, and with no leading zero after the sign |
| `Text.NatToDecimalRoundTrip` | src/display_manager.py:177-179 | the digits of the rendered day read back as the day |
| `Text.IntToDecimalRoundTrip` | src/display_manager.py:244 | the rendered reading parses back to the reading |
| `Text.NatToDecimalInjective` | src/display_manager.py:179 | different days render differently |
| `Display.HumidityLevel` | src/display_manager.py:138-150 | low iff below min; high iff not below min and above max; normal iff within the closed range, so low wins when min > max |
| `Display.HumidityColor` | src/display_manager.py:132-157 | with dynamic colour on, the colour is always one of the three palette entries or its default |
| `Display.HumidityColorCases` | src/display_manager.py:132-157 | dynamic colour off: the configured colour or 100,200,255. On: below min, low or 255,50,50; above max and not below min, high or 100,150,255; within [min, max], normal or 50,255,100 |
| `Display.StaticColorIgnoresReading` | src/display_manager.py:133-134 | with dynamic colour off, the colour does not depend on humidity or thresholds |
| `Display.ThresholdBoundaries` | src/display_manager.py:139-150 | min and max themselves are normal; min-1 is low and max+1 is high |
| `Display.LevelMonotone` | src/display_manager.py:139-150 | a higher reading never has a lower level, whatever the order of min and max |
| `Display.DefaultPaletteSeparatesLevels` | src/display_manager.py:141-149 | under the default palette two readings share a colour iff they share a level |
| `Display.StatusLine` | src/display_manager.py:242-256 | offline: exactly "ERR" in 255,0,0; online: the shortest decimal form of the reading (which parses back to it) plus "%", coloured by the thresholds when both are given, else by the configured colour, whose absence is a KeyError |
| `Display.OfflineShowsErr` | src/display_manager.py:253-256 | an offline status is "ERR" in red whatever the reading, thresholds and config |
| `Display.MonthTable` | src/display_manager.py:17-20 | the month table is defined exactly on 1..12, every entry has three letters, and no two months share one |
| `Display.FormatDate` | src/display_manager.py:169-179 | the date string is the day's shortest decimal form (no leading zero), a space, and the month's abbreviation, and the day reads back from it |
| `Display.FormatDateInjective` | src/display_manager.py:176-179 | different (day, month) pairs give different date strings |
| `Display.FirstUsable` | src/display_manager.py:53-72 | the chosen candidate exists and loads and every earlier one does not; none is chosen only when no candidate is usable |
| `Display.BackgroundCandidates` | src/display_manager.py:53-54 | the six image paths, one per extension, in the order .png, .jpg, .jpeg, .PNG, .JPG, .JPEG |
| `Display.LoadBackground` | src/display_manager.py:42-74 | returns the first background path in extension order that exists and loads, or none |
| `Display.FontChoice` | src/display_manager.py:87-111 | a chosen TrueType font is a usable candidate at the requested size; the default is used iff no candidate is usable; a usable non-empty custom path always wins |
| `Display.SystemFontOrder` | src/display_manager.py:95-107 | without a usable custom font, the first usable system font wins |
| `Display.GetFont` | src/display_manager.py:76-111 | the loop over the custom path and then the system fonts returns the font FontChoice names |
| `Display.CanvasChoice` | src/display_manager.py:210-217 | the canvas is display-sized; it is a picture only when backgrounds are on and that image is the first usable candidate in extension order, and black iff backgrounds are off or no candidate loads |
| `Display.MissingKey` | src/display_manager.py:222-252 | no key is missing iff the name's size, colour and position, the humidity text's size and position, and (online without both thresholds) its colour are all configured; a missing key is "size", "color" or "position" |
| `Display.CreatePlantImage` | src/display_manager.py:181-308 | fails with the first missing required key in reading order; otherwise gives the chosen canvas, the name layer, the status layer, and exactly when enabled the time and date layers with their defaults |
| `Display.DisplayPlant` | src/display_manager.py:339-354 | true iff the frame composes and both the upload and the push succeed |
| `Prometheus.StripTrailingSlashes` | src/prometheus_client.py:22 | the result is a prefix with no trailing '/', and only slashes were removed |
| `Prometheus.NewClient` | src/prometheus_client.py:15-23 | base_url is the URL with trailing slashes stripped; api_url is base_url followed by "/api/v1" |
| `Prometheus.NewClientNormalises` | src/prometheus_client.py:22-23 | an extra trailing slash changes nothing, and normalising a normalised URL is the identity |
| `Prometheus.Query` | src/prometheus_client.py:43-53 | the response data unchanged iff the request went through with status "success"; none otherwise |
| `Prometheus.ThresholdMap` | src/prometheus_client.py:90-102 | a threshold loop raises only TypeError, IndexError or ValueError |
| `Prometheus.ThresholdMapSpec` | src/prometheus_client.py:90-102 | a threshold loop raises iff some item has a device id and a null value, a too-short value list or an unparsable truthy value; otherwise each id maps to its last entering item's value |
| `Prometheus.ThresholdFailureSticks` | src/prometheus_client.py:90-102 | an exception in a threshold loop ends it: the later items do not change the outcome |
| `Prometheus.BuildThresholds` | src/prometheus_client.py:90-102 | the dictionary-filling loop computes ThresholdMap, exception included |
| `Prometheus.PlantRecord` | src/prometheus_client.py:108-132 | a sample's record raises iff its value is null (TypeError), its value list is too short (IndexError) or its truthy value fails to parse (ValueError); otherwise the fields take their labels or the defaults 'unknown', 'Unknown', humidity 0, min 30, max 80, '' and '', and no online status is set |
| `Prometheus.Plants` | src/prometheus_client.py:105-132 | never more records than samples |
| `Prometheus.PlantsAppend` | src/prometheus_client.py:105-132 | order is preserved: the records of a + b are the records of a followed by those of b |
| `Prometheus.PlantsAllParsed` | src/prometheus_client.py:108-124 | when every sample parses, record i comes from sample i |
| `Prometheus.PlantsFromSamples` | src/prometheus_client.py:108-132 | every record is the record of some sample |
| `Prometheus.PlantHumidity` | src/prometheus_client.py:55-135 | a failed humidity query gives the empty list; the only exceptions that escape are TypeError, IndexError and ValueError |
| `Prometheus.BuildPlants` | src/prometheus_client.py:105-132 | the record loop raises TypeError iff some sample's value is null, and otherwise, skipping the samples whose record raises a caught exception, computes Plants |
| `Prometheus.GetPlantHumidity` | src/prometheus_client.py:55-135 | the query, threshold loops and record loop compute PlantHumidity |
| `Prometheus.NoHumidityNoPlants` | src/prometheus_client.py:76-80 | a failed humidity query gives [] whatever the threshold responses |
| `Prometheus.PlantsFieldDefaults` | src/prometheus_client.py:114-122 | each record's min and max are looked up separately and default to 30 and 80, and no record has an online flag |
| `Prometheus.FailedThresholdQueryDefaults` | src/prometheus_client.py:83-119 | a failed min (max) query gives every plant min 30 (max 80) |
| `Prometheus.PlantHumidityShape` | src/prometheus_client.py:76-135 | at most one record per humidity sample; the call raises iff the humidity query succeeded and a threshold loop raised or a sample's value is null, and with both threshold loops through the exception is a TypeError |
| `Prometheus.WithStatus` | src/prometheus_client.py:114-122 | completes every record with the online flag and age the staleness signal gives for its device id, and changes no other field |
| `Rotation.Step` | main.py:99-145 | fetches iff the interval elapsed or the list is empty; an empty fetch clears the list, keeps the last update time and backs off 10 s; a non-empty one records now and restarts at 0; a shown index is in bounds and the next is (shown+1) mod len; the index stays in bounds |
| `Rotation.Run` | main.py:99-145 | passes keep the index in bounds and give at most one report per input |
| `Rotation.NextIndex` | main.py:142 | (i + 1) mod len is the next index, or 0 after the last |
| `Rotation.AdvancedWithinRound` | main.py:142 | within one round the index runs to the end and wraps once |
| `Rotation.AdvancedShift` | main.py:142 | advancing once and then k times is advancing k + 1 times |
| `Rotation.RotationAdvances` | main.py:115-145 | with no refresh due, k passes show consecutive indices from the current one and leave the list and update time unchanged |
| `Rotation.RotationIsCyclic` | main.py:142 | len passes with no refresh return to the starting state and show every plant exactly once, in list order from the start index |
| `Rotation.EmptyRefreshRetries` | main.py:103-110 | after an empty refresh the loop runs on with the old update time and the next pass refreshes whatever the time |
| `Rotation.FetchedRecordsStopLoop` | main.py:117-154 | records exactly as get_plant_humidity builds them stop the loop with status 1 before anything is shown |
| `Rotation.StatusedRecordsAreShown` | main.py:116-142 | records that carry a status are shown from index 0 and the loop keeps running |
| `Rotation.ThreePlantScenario` | main.py:94-145 | a failed start then three plants: back off 10 s, then show 0, 1, 2, 0 without fetching again |
| `Rotation.Controller.constructor` | main.py:94-96 | the loop starts with no plants, index 0 and last update 0 |
| `Rotation.Controller.Tick` | main.py:99-145 | one loop pass: its new state and report are those of Step; the display outcome changes neither |
| `Rotation.Controller.Interrupt` | main.py:147-149 | a keyboard interrupt ends the loop with status 0 and changes nothing else |

## Left out

- HTTP transport (`requests.get`, `raise_for_status`, the 10 s timeout, JSON decoding) is network I/O. A response is an input value: a failed request, or a decoded body.
- The float parse `int(float(s))` is floating point. It is the parameter `parse`, which may fail.
- `Prometheus.PlantRecord`: a failed parse is always a ValueError, which the record loop catches. An overflowing value such as "+Inf" or "1e400" makes `int(float(s))` raise OverflowError. That exception is not in the tuple caught at src/prometheus_client.py:130, so it escapes `get_plant_humidity` and the loop exits with status 1. The model skips that sample instead, or keeps it if `parse` accepts the text.
- PIL work is foreign library code: image decoding, resizing to the display size, RGB conversion, font rasterising and `draw.text`. A file system says which paths exist and which load. A frame is the list of choices: canvas and text layers.
- The Pixoo device calls `draw_image`, `push` and `clear` are device I/O. `DisplayPlant` takes their outcomes as inputs. A stopped loop stands for "display cleared".
- `datetime.now()` and `strftime("%H:%M")` read the clock. The time text, day and month are inputs.
- `time.time()` and `time.sleep` read and wait on the clock. Time is whole seconds passed to `Tick`, and a sleep is a returned duration. The two intervals are whole seconds, not floats.
- YAML loading, `sys.exit` on a bad config file, and logging setup are configuration I/O.
- Config colours and positions are three- and two-integer records. A list of another length, passed through `tuple(...)`, is not modelled.
- `images_dir` is joined to the file name with "/". `pathlib` path normalisation is not modelled.
- Configuration keys that `create_plant_image` reads with `[]` are optional fields. A missing one is a KeyError. Other exceptions are not modelled: value types other than strings, non-dict items, or a font that fails inside `draw.text`.
- `Rotation.Controller.Interrupt`: a keyboard interrupt is modelled only between loop passes, not during a fetch or a sleep.
- The tests under `tests/` are manual scripts against live hardware, not assertions.
- Logging of every kind (including the success flag of `display_plant`, which the loop only logs) has no effect on the state.

## Findings

| source | as written | input that shows it | evidently intended | confidence | as-written member | corrected member |
|---|---|---|---|---|---|---|
| main.py:119 | the loop reads `plant['is_online']` (and `time_since_update` for offline plants), but `get_plant_humidity` never sets either key (src/prometheus_client.py:114-122), so the KeyError lands in the generic handler and the program exits with status 1 | any humidity response with at least one sample that parses | each plant record carries an online flag and an age from a separate staleness signal, so the loop rotates | not executed; high | `Rotation.FetchedRecordsStopLoop` | `Prometheus.WithStatus` (proved to rotate in `Rotation.StatusedRecordsAreShown`) |
