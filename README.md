# Image analyzer display pipeline and LCD drivers

A model of the Raspberry Pi image analyzer: its text-to-panel pipeline and its two
SPI panel drivers.

- **Text pipeline** (`imageAPI/RaspBerryPiScript.py`).
  - `sanitize_text` keeps only the ISO/IEC 8859-1 characters (module `TextLayout`).
  - The greedy word-wrapper inside `display_text_on_lcd` splits the text at newlines
    and at whitespace. It fills a line while the measured width fits the available
    width. It breaks a word by characters only when `current_line` is empty, that is,
    for the first word of a paragraph (`TextLayout`, as functions and as the nested
    loops themselves).
  - The layout constants, the scroll clamp, the visible slice, the draw loop and the
    size of the frame handed to the panel are in `Viewport`.
  - The digit parse of the orientation reply is in `RotationReply`.
  - `main`'s globals and its capture, up and down buttons are in `Session`, as the
    class `ImageAnalyzer`.
- **Panel drivers** (`imageAPI/lib/LCD_1inch5.py`, `imageAPI/lib/LCD_0inch85.py`).
  - The pin-and-SPI base class is a recorder, `LcdBus.RaspberryPi`. It appends every
    DC write, RST write and SPI burst to a trace.
  - Each driver operation is a method of `Lcd1inch5Driver.Lcd1inch5` or
    `Lcd0inch85Driver.Lcd0inch85`. Its contract gives the exact events it appends.
  - The MIPI DCS window encoding is in `DcsWindow`. The RGB565 packing is in `Rgb565`.
    The 4096-byte chunking is in `LcdBus`.

Glyph widths come from a FreeType font, so every text operation takes a
`measure: string -> nat` parameter.

## Model

| member | source | states |
|---|---|---|
| `TextLayout.Sanitize` | imageAPI/RaspBerryPiScript.py:57-59 | the result is no longer than the input and holds only characters below U+0100 |
| `TextLayout.SanitizeAppend` | imageAPI/RaspBerryPiScript.py:57-59 | sanitising works character by character: the result for a concatenation is the concatenation of the results |
| `TextLayout.SanitizeKeeps` | imageAPI/RaspBerryPiScript.py:59 | every Latin-1 character is kept, in its place between what is kept before and after it |
| `TextLayout.SanitizeDrops` | imageAPI/RaspBerryPiScript.py:59 | every character from U+0100 up is dropped and leaves nothing behind |
| `TextLayout.SanitizeLatin1` | imageAPI/RaspBerryPiScript.py:57-59 | Latin-1 text is returned unchanged |
| `TextLayout.SanitizeIdempotent` | imageAPI/RaspBerryPiScript.py:57-59 | sanitising twice gives the same result as sanitising once |
| `TextLayout.SplitLines` | imageAPI/RaspBerryPiScript.py:360 | `split('\n')` always gives at least one piece, and no piece holds a newline |
| `TextLayout.JoinSplitLines` | imageAPI/RaspBerryPiScript.py:360 | joining the pieces with newlines gives back the text |
| `TextLayout.SplitJoinLines` | imageAPI/RaspBerryPiScript.py:360 | newline-free pieces are recovered exactly by splitting their join |
| `TextLayout.IsSpace` | imageAPI/RaspBerryPiScript.py:361-365 | the characters `str.isspace` accepts, which are also what `split()` and `strip()` separate on |
| `TextLayout.IsBlank` | imageAPI/RaspBerryPiScript.py:361-363 | `not paragraph.strip()`: every character is whitespace |
| `TextLayout.RemoveSpaces` | imageAPI/RaspBerryPiScript.py:365 | the result holds no whitespace character |
| `TextLayout.WordLength` | imageAPI/RaspBerryPiScript.py:365 | the leading run of non-whitespace stops at the first whitespace character |
| `TextLayout.Words` | imageAPI/RaspBerryPiScript.py:365 | `split()` gives only non-empty words without whitespace |
| `TextLayout.WordLengthOf` | imageAPI/RaspBerryPiScript.py:365 | a word followed by whitespace or by the end is read to its end and no further |
| `TextLayout.WordsCons` | imageAPI/RaspBerryPiScript.py:365 | a word followed by whitespace or by the end is the first word, and the rest is split on its own |
| `TextLayout.WordsJoinSpaced` | imageAPI/RaspBerryPiScript.py:365 | `split()` gives back any list of words joined by single spaces, so each word it returns is a maximal run of non-whitespace |
| `TextLayout.WordsConcat` | imageAPI/RaspBerryPiScript.py:365 | the words, run together, are the paragraph with exactly its whitespace removed |
| `TextLayout.WordsEmptyIff` | imageAPI/RaspBerryPiScript.py:361-368 | a paragraph has no words if and only if it is blank, so the `if not words` branch is dead |
| `TextLayout.FirstOverflow` | imageAPI/RaspBerryPiScript.py:384-392 | it finds the first index `k >= i` with `measure(word[:k+1]) > width and k > 0`, or reports that there is none |
| `TextLayout.Step` | imageAPI/RaspBerryPiScript.py:371-392 | one pass of the word loop: join the word if the joined line fits; otherwise emit a non-empty `current_line` and start over with the word; otherwise cut the word at its first overflowing index, or keep it whole |
| `TextLayout.Fold` | imageAPI/RaspBerryPiScript.py:370-392 | the word loop run over the first words of a paragraph, from no lines and an empty `current_line` |
| `TextLayout.WrapParagraph` | imageAPI/RaspBerryPiScript.py:361-395 | one `""` line for a blank paragraph; otherwise the lines the word loop emits and then the last `current_line` if it is not empty |
| `TextLayout.WrapAll` | imageAPI/RaspBerryPiScript.py:360-395 | the lines of each paragraph, in order |
| `TextLayout.Wrap` | imageAPI/RaspBerryPiScript.py:358-395 | `wrapped_text_lines`: the paragraphs are the text split at newlines |
| `TextLayout.FindBreak` | imageAPI/RaspBerryPiScript.py:384-392 | the character loop breaks at the first overflowing index from 1 on, and reaches its `else` only when there is none |
| `TextLayout.WrapWords` | imageAPI/RaspBerryPiScript.py:370-392 | the word loop leaves the lines and `current_line` of the greedy fold over the paragraph's words |
| `TextLayout.WrapLines` | imageAPI/RaspBerryPiScript.py:358-395 | the paragraph loop produces exactly the wrapped lines of the whole text |
| `TextLayout.StepKeepsChars` | imageAPI/RaspBerryPiScript.py:371-392 | every pass of the word loop adds exactly the word's characters to what has been wrapped, with whitespace ignored |
| `TextLayout.JoinKeepsChars` | imageAPI/RaspBerryPiScript.py:372-377 | joining a word onto `current_line` adds nothing but a space besides the word |
| `TextLayout.BreakKeepsChars` | imageAPI/RaspBerryPiScript.py:383-392 | breaking a word that starts a line keeps all its characters, split between the emitted fragment and the new `current_line` |
| `TextLayout.StepKeepsLines` | imageAPI/RaspBerryPiScript.py:372-392 | every pass emits only non-empty lines, leaves `current_line` non-empty, and any line with a space in it fits the width |
| `TextLayout.StepInvariant` | imageAPI/RaspBerryPiScript.py:371-392 | each pass preserves the invariant of the word loop |
| `TextLayout.FoldKeepsInvariant` | imageAPI/RaspBerryPiScript.py:370-392 | the invariant of the word loop holds after any number of words |
| `TextLayout.WrapParagraphShape` | imageAPI/RaspBerryPiScript.py:360-368 | a blank paragraph gives exactly one `""` line; any other paragraph gives at least one line and no empty line |
| `TextLayout.WrapParagraphKeepsChars` | imageAPI/RaspBerryPiScript.py:370-395 | a paragraph's lines with whitespace removed, run together, are its words run together |
| `TextLayout.WrapParagraphFits` | imageAPI/RaspBerryPiScript.py:372-381 | every line of a paragraph that contains a space is within the available width |
| `TextLayout.LaterWordsWhole` | imageAPI/RaspBerryPiScript.py:372-381 | the greedy rule: after a paragraph's first word `current_line` is never empty, and a later word joins it exactly when the joined line fits; otherwise `current_line` is emitted and the word starts the next line whole |
| `TextLayout.FirstWordBreak` | imageAPI/RaspBerryPiScript.py:383-392 | a first word that is too wide is cut at the first overflowing index, the fragment before it is non-empty, and the rest becomes `current_line`; with no such index the whole word is kept |
| `TextLayout.WrapAllLength` | imageAPI/RaspBerryPiScript.py:360-395 | every paragraph contributes at least one line |
| `TextLayout.WrapLength` | imageAPI/RaspBerryPiScript.py:358-395 | the line count that `display_text_on_lcd` returns is at least the number of paragraphs, and at least one |
| `TextLayout.WrapAllFits` | imageAPI/RaspBerryPiScript.py:372-381 | across all paragraphs, a line with a space in it fits the width |
| `TextLayout.WrapFits` | imageAPI/RaspBerryPiScript.py:358-395 | over a whole text, only single words and word fragments can be wider than the available width |
| `TextLayout.WrapAllKeepsChars` | imageAPI/RaspBerryPiScript.py:358-395 | across all paragraphs, no non-whitespace character is lost, added or reordered |
| `TextLayout.JoinLinesRemoveSpaces` | imageAPI/RaspBerryPiScript.py:360 | the newlines between paragraphs are whitespace, so they carry no characters |
| `TextLayout.WrapKeepsChars` | imageAPI/RaspBerryPiScript.py:358-395 | the wrapped lines hold exactly the text's non-whitespace characters, in order |
| `Viewport.AvailableTextWidth` | imageAPI/RaspBerryPiScript.py:353 | the width left after the horizontal padding on both sides |
| `Viewport.MaxVisibleLines` | imageAPI/RaspBerryPiScript.py:349-356 | the line budget is the floor of the text height over the line height, and is non-negative when the panel is at least as tall as the paddings |
| `Viewport.PanelLayout` | imageAPI/RaspBerryPiScript.py:349-356 | on the 240x280 panel, 15 lines of at most 220 pixels |
| `Viewport.ClampScroll` | imageAPI/RaspBerryPiScript.py:398 | the start line is within `0 .. max(0, n - max_visible_lines)`; a position in that range is kept, one below it gives 0, and one above it gives the top of the range |
| `Viewport.SliceBound` | imageAPI/RaspBerryPiScript.py:399 | a slice bound is resolved as Python does it: a negative bound counts from the end, and any bound is clipped to the list |
| `Viewport.PySlice` | imageAPI/RaspBerryPiScript.py:399 | a slice is never longer than the list |
| `Viewport.VisibleLines` | imageAPI/RaspBerryPiScript.py:398-399 | the slice of the wrapped lines from the clamped start, at most the line budget long |
| `Viewport.VisibleLinesWindow` | imageAPI/RaspBerryPiScript.py:398-399 | the visible lines are `lines[start .. min(n, start + max_visible_lines)]`, and there are `min(max_visible_lines, n)` of them |
| `Viewport.DrawCount` | imageAPI/RaspBerryPiScript.py:402-408 | the draw loop places line `j` exactly while `top_padding + (j+1) * line_height <= height - bottom_padding` |
| `Viewport.DrawLines` | imageAPI/RaspBerryPiScript.py:402-408 | the loop places lines one line height apart, starting at the top padding and at the horizontal padding, until the bottom bound stops it |
| `Viewport.Placements` | imageAPI/RaspBerryPiScript.py:402-408 | the draw loop's `draw.text` calls: the first `DrawCount` visible lines, each at its position |
| `Viewport.WindowFullyDrawn` | imageAPI/RaspBerryPiScript.py:398-408 | the draw bound never cuts the visible window: every visible line is placed |
| `Viewport.Rotated` | imageAPI/RaspBerryPiScript.py:411 | a quarter turn with `expand=True` swaps the width and the height |
| `Viewport.FrameSize` | imageAPI/RaspBerryPiScript.py:411-415 | the rotated canvas, replaced by the panel's size when the two differ |
| `Viewport.FrameMatchesPanel` | imageAPI/RaspBerryPiScript.py:411-415 | the image handed to `ShowImage` always has the panel's size; on the 240x280 panel that needs the resize |
| `Viewport.Render` | imageAPI/RaspBerryPiScript.py:317-420 | the frame `display_text_on_lcd` hands to `ShowImage`: its size and the placed lines |
| `Viewport.RenderShowsWindow` | imageAPI/RaspBerryPiScript.py:317-420 | the panel shows the wrapped lines from the clamped start, as many as the budget allows, each one line height below the previous |
| `Viewport.DisplayTextOnLcd` | imageAPI/RaspBerryPiScript.py:317-420 | with no panel it shows nothing and returns 0; otherwise it returns the number of wrapped lines and shows the rendered window |
| `RotationReply.IsDigitChar` | imageAPI/RaspBerryPiScript.py:127 | `str.isdigit` on Latin-1: the ASCII digits and the superscripts one, two and three |
| `RotationReply.Digits` | imageAPI/RaspBerryPiScript.py:127 | `filter(str.isdigit, …)` keeps only digit characters |
| `RotationReply.DigitsAppend` | imageAPI/RaspBerryPiScript.py:127 | the digits of a concatenation are the digits of each part, in order |
| `RotationReply.DecimalValue` | imageAPI/RaspBerryPiScript.py:127 | `int()` of a string of ASCII digits, read most significant digit first |
| `RotationReply.DecimalText` | imageAPI/RaspBerryPiScript.py:127 | `str(n)` is non-empty ASCII digits with no leading zero |
| `RotationReply.DecimalRoundTrip` | imageAPI/RaspBerryPiScript.py:127 | `int(str(n)) == n` |
| `RotationReply.ParseRotationReply` | imageAPI/RaspBerryPiScript.py:122-133 | the angle is always 0, 90, 180 or 270; a reply with no digits gives 0; a non-zero angle is exactly the value the reply's digits read, so digits reading 45, 100 or 200 give 0; and digits reading 90, 180 or 270 give that angle |
| `RotationReply.NoDigitsSanitized` | imageAPI/RaspBerryPiScript.py:122-127 | text without digits has no digits after sanitising |
| `RotationReply.DigitsOfDecimal` | imageAPI/RaspBerryPiScript.py:127 | the digit filter keeps ASCII digits unchanged |
| `RotationReply.SanitizedDigitsAppend` | imageAPI/RaspBerryPiScript.py:122-127 | the digits of a sanitised concatenation are those of its parts |
| `RotationReply.SanitizedDigitsOfNumber` | imageAPI/RaspBerryPiScript.py:122-127 | a written number passes the sanitiser and the filter unchanged |
| `RotationReply.ParseSingleNumber` | imageAPI/RaspBerryPiScript.py:122-133 | a single number written anywhere in a reply, with no other digit around it, gives itself when it is 0, 90, 180 or 270 and 0 otherwise |
| `RotationReply.ParseRoundTrip` | imageAPI/RaspBerryPiScript.py:122-133 | an accepted angle written anywhere in a reply, with no other digit around it, is read back exactly |
| `RotationReply.TwoAnglesRejected` | imageAPI/RaspBerryPiScript.py:127-130 | all the digits form one number, so a reply naming a non-zero angle and then another angle gives 0 |
| `RotationReply.DigitsBetween` | imageAPI/RaspBerryPiScript.py:122-127 | ASCII digits separated by digit-free text are collected into one string, in order |
| `RotationReply.TooLargeRejected` | imageAPI/RaspBerryPiScript.py:127-130 | a reply whose digits read as a number above 270 gives 0 |
| `RotationReply.SuperscriptRejected` | imageAPI/RaspBerryPiScript.py:127-133 | a superscript digit passes `isdigit` but makes `int()` fail, so the reply gives 0 |
| `RotationReply.DecimalPrefix` | imageAPI/RaspBerryPiScript.py:127 | appending digits at least multiplies the value by ten |
| `Session.ButtonMaxScroll` | imageAPI/RaspBerryPiScript.py:486-489 | the down button's bound is non-negative and at least `total - (height - 4) // 12` |
| `Session.PanelBounds` | imageAPI/RaspBerryPiScript.py:486-489 | on the 280-pixel panel the buttons subtract 23 lines where the renderer subtracts 15 |
| `Session.ScrollUp` | imageAPI/RaspBerryPiScript.py:474-480 | the up button: one line up when there is a description and the position is above 0, otherwise unchanged |
| `Session.ScrollDown` | imageAPI/RaspBerryPiScript.py:486-492 | the down button: one line down when there is a description and the position is below the button's bound, otherwise unchanged |
| `Session.ButtonsKeepRange` | imageAPI/RaspBerryPiScript.py:474-496 | neither button moves the position below 0 or above the down button's bound, and each moves it by at most one line |
| `Session.UpDownInverse` | imageAPI/RaspBerryPiScript.py:474-496 | away from the ends of the range, up undoes down and down undoes up |
| `Session.ButtonBoundWithinRenderer` | imageAPI/RaspBerryPiScript.py:486-489 | on the 280-pixel panel, a position the buttons reach is never clamped by the renderer |
| `Session.TailNeverShown` | imageAPI/RaspBerryPiScript.py:482-496 | with 17 or more lines the last line is never on screen, and with 23 or more the last seven are never on screen |
| `Session.DownAtBoundShowsNextWindow` | imageAPI/RaspBerryPiScript.py:484-493 | at the bound, down leaves the position unchanged but shows the window one line further down |
| `Session.ImageAnalyzer.constructor` | imageAPI/RaspBerryPiScript.py:460-464 | start-up: position 0, no description, and the ready message is shown |
| `Session.ImageAnalyzer.Show` | imageAPI/RaspBerryPiScript.py:317-420 | one `display_text_on_lcd` call is recorded, and the position and the description are unchanged |
| `Session.ImageAnalyzer.ShowAndCount` | imageAPI/RaspBerryPiScript.py:484 | the call returns the number of wrapped lines, and the panel shows that text's frame |
| `Session.ImageAnalyzer.PressUp` | imageAPI/RaspBerryPiScript.py:474-480 | with a description and a position above 0, the position drops by one and is redrawn; otherwise nothing happens; the bound is kept |
| `Session.ImageAnalyzer.PressDown` | imageAPI/RaspBerryPiScript.py:482-496 | with a description, it draws one line below, then moves there and redraws only within the button's bound; the panel ends up one line below the old position either way; the bound is kept |
| `Session.ImageAnalyzer.CaptureAndDescribe` | imageAPI/RaspBerryPiScript.py:422-453 | the position is reset to 0; the progress messages are shown in order for each outcome; the description is replaced only when the requests ran |
| `Session.ImageAnalyzer.PressCapture` | imageAPI/RaspBerryPiScript.py:468-472 | the exact display calls for each outcome: "Capturing image..." twice (once from the button, once from `capture_and_describe_image`), then the failure message, or the detecting message and the failure message, or the detecting, analyzing and generating messages and the description; the position ends at 0 |
| `LcdBus.Fill` | imageAPI/lib/LCD_1inch5.py:241 | `[0xff] * n` is n bytes of 0xFF |
| `LcdBus.OpEvents` | imageAPI/lib/LCD_1inch5.py:9-15 | a command sets DC low and a data call sets DC high, then exactly one byte is written |
| `LcdBus.OpsTrace` | imageAPI/lib/LCD_1inch5.py:9-15 | a run of `command` and `data` calls, each setting DC and then writing its one byte |
| `LcdBus.OpsTraceAppend` | imageAPI/lib/LCD_1inch5.py:26-197 | the trace of consecutive command runs is the concatenation of their traces |
| `LcdBus.OpsTraceSnoc` | imageAPI/lib/LCD_1inch5.py:26-197 | one more command or data call appends exactly its two events |
| `LcdBus.OpsTraceAt` | imageAPI/lib/LCD_1inch5.py:9-15 | call `k` of a command run is events `2k` (the DC level) and `2k+1` (its one byte) of the trace |
| `LcdBus.OpsTraceLength` | imageAPI/lib/LCD_1inch5.py:9-15 | every command or data call contributes exactly two events |
| `LcdBus.ChunkAt` | imageAPI/lib/LCD_1inch5.py:236-237 | `buf[i:i+4096]` is non-empty, at most 4096 bytes, and exactly the buffer from `i` on |
| `LcdBus.Chunks` | imageAPI/lib/LCD_1inch5.py:236-237 | the loop sends `ceil(len / 4096)` bursts, each non-empty and at most 4096 bytes |
| `LcdBus.ChunksFlatten` | imageAPI/lib/LCD_1inch5.py:234-237 | the bursts, run together, are the buffer |
| `LcdBus.ChunkIndex` | imageAPI/lib/LCD_1inch5.py:236-237 | burst `k` is the slice taken at `i = 4096k`, and every burst but the last is full |
| `LcdBus.SpiWritesAt` | imageAPI/lib/LCD_1inch5.py:236-237 | burst `k` is the `k`-th `spi_writebyte` call |
| `LcdBus.SpiWritesLength` | imageAPI/lib/LCD_1inch5.py:236-237 | there is one `spi_writebyte` call per burst |
| `LcdBus.ChunksUnfold` | imageAPI/lib/LCD_1inch5.py:234-237 | after the burst at `i`, what remains to send is the burst at `i + 4096` onwards |
| `LcdBus.RaspberryPi.WriteChunked` | imageAPI/lib/LCD_1inch5.py:236-237 | the chunk loop appends one SPI write per burst of the buffer, in order |
| `Rgb565.PackedHigh` | imageAPI/lib/LCD_1inch5.py:230 | byte 0: the top 5 bits of red, then the top 3 bits of green |
| `Rgb565.PackedLow` | imageAPI/lib/LCD_1inch5.py:231 | byte 1: the next 3 bits of green, then the top 5 bits of blue |
| `Rgb565.PackedHighNoCarry` | imageAPI/lib/LCD_1inch5.py:230 | byte 0's two fields do not overlap, so the `+` is a bitwise OR |
| `Rgb565.PackedLowNoCarry` | imageAPI/lib/LCD_1inch5.py:231 | byte 1's two fields do not overlap, so the `+` is a bitwise OR |
| `Rgb565.Unpack` | imageAPI/lib/LCD_1inch5.py:230-231 | the fields read back out of the two bytes are 5, 6 and 5 bits wide |
| `Rgb565.UnpackPacked` | imageAPI/lib/LCD_1inch5.py:230-231 | packing keeps exactly the top 5 bits of red, 6 of green and 5 of blue |
| `Rgb565.PackedEqualIff` | imageAPI/lib/LCD_1inch5.py:230-231 | two pixels pack alike if and only if they agree on those bits |
| `Rgb565.PackedExtremes` | imageAPI/lib/LCD_1inch5.py:230-231 | white packs to (0xFF, 0xFF) and black to (0, 0) |
| `Rgb565.Octet` | imageAPI/lib/LCD_1inch5.py:233 | `tolist()` turns each `uint8` into the same integer |
| `Rgb565.PackRow` | imageAPI/lib/LCD_1inch5.py:228-233 | the bytes of one row, two per pixel |
| `Rgb565.PackRows` | imageAPI/lib/LCD_1inch5.py:228-233 | the rows' bytes, one row after another |
| `Rgb565.PackImage` | imageAPI/lib/LCD_1inch5.py:228-233 | `pix.flatten().tolist()`: the packed image as a list of integers |
| `Rgb565.PackRowAt` | imageAPI/lib/LCD_1inch5.py:228-233 | pixel `x` of a row is at bytes `2x` and `2x+1`, high byte first |
| `Rgb565.PackRowLength` | imageAPI/lib/LCD_1inch5.py:228-233 | two bytes per pixel of a row |
| `Rgb565.PackRowsLength` | imageAPI/lib/LCD_1inch5.py:228-233 | two bytes per pixel of the image |
| `Rgb565.PackRowsAt` | imageAPI/lib/LCD_1inch5.py:228-233 | the bytes are laid out row-major |
| `Rgb565.PackImageLayout` | imageAPI/lib/LCD_1inch5.py:228-233 | the buffer has `w*h*2` bytes, and pixel (x, y) is at byte `2(yw + x)`, byte 0 before byte 1 |
| `Rgb565.PackImageLength` | imageAPI/lib/LCD_1inch5.py:228-233 | the buffer has `w*h*2` bytes |
| `DcsWindow.HighOctet` | imageAPI/lib/LCD_1inch5.py:205-208 | `(v>>8) & 0xff` |
| `DcsWindow.LowOctet` | imageAPI/lib/LCD_1inch5.py:205-208 | `v & 0xff` |
| `DcsWindow.WindowOps` | imageAPI/lib/LCD_1inch5.py:204-217 | the 0x2A, 0x2B and 0x2C command stream with each bound as two octets, end minus one |
| `DcsWindow.Word` | imageAPI/lib/LCD_1inch5.py:205-208 | a high and a low octet make a 16-bit value |
| `DcsWindow.OctetsRoundTrip` | imageAPI/lib/LCD_1inch5.py:205-208 | `v>>8 & 0xff` and `v & 0xff` carry `v` modulo 2^16, big-endian |
| `DcsWindow.WindowOpsDecode` | imageAPI/lib/LCD_1inch5.py:204-217 | the 0x2A, 0x2B, 0x2C stream sets columns `start .. end-1` and pages `start .. end-1`, each modulo 2^16 |
| `DcsWindow.WindowOpsExact` | imageAPI/lib/LCD_1inch5.py:204-217 | a window inside the 16-bit range is set exactly as requested |
| `Lcd1inch5Driver.Lcd1inch5.constructor` | imageAPI/lib/LCD_1inch5.py:5 | a new driver starts on a fresh bus with an empty trace |
| `Lcd1inch5Driver.Lcd1inch5.Command` | imageAPI/lib/LCD_1inch5.py:9-11 | DC low, then exactly the one command byte |
| `Lcd1inch5Driver.Lcd1inch5.Data` | imageAPI/lib/LCD_1inch5.py:13-15 | DC high, then exactly the one data byte |
| `Lcd1inch5Driver.Lcd1inch5.SendOps` | imageAPI/lib/LCD_1inch5.py:26-197 | a run of command and data calls appends their events, in order |
| `Lcd1inch5Driver.Lcd1inch5.Reset` | imageAPI/lib/LCD_1inch5.py:17-24 | RST is driven high, low, high, in that order |
| `Lcd1inch5Driver.Lcd1inch5.Init` | imageAPI/lib/LCD_1inch5.py:26-197 | module set-up, the reset pulse, then the vendor register table |
| `Lcd1inch5Driver.Lcd1inch5.SetWindows` | imageAPI/lib/LCD_1inch5.py:199-217 | the window stream with the rows shifted by 20 and the columns unshifted |
| `Lcd1inch5Driver.Lcd1inch5.ShowImage` | imageAPI/lib/LCD_1inch5.py:219-237 | it fails if and only if the image is not 240x280, and then touches nothing; otherwise it sends the full-panel window, DC high, and the packed image in bursts |
| `Lcd1inch5Driver.Lcd1inch5.Clear` | imageAPI/lib/LCD_1inch5.py:239-245 | the full-panel window, DC high, then `240*280*2` bytes of 0xFF in bursts |
| `Lcd1inch5Driver.SetWindowsLatches` | imageAPI/lib/LCD_1inch5.py:199-217 | the panel sets columns `x0 .. x1-1` and rows `y0+20 .. y1+19` |
| `Lcd1inch5Driver.FullPanelWindow` | imageAPI/lib/LCD_1inch5.py:199-217 | the full-panel window is columns 0..239 and rows 20..299 |
| `Lcd1inch5Driver.FullFrameTrace` | imageAPI/lib/LCD_1inch5.py:234-237 | the full-panel window, DC high, then one SPI write per 4096-byte burst of the buffer |
| `Lcd1inch5Driver.FrameBursts` | imageAPI/lib/LCD_1inch5.py:228-237 | a frame is 134400 bytes in 33 bursts: 32 full bursts and a last one of 3328 bytes, which together are the buffer |
| `Lcd1inch5Driver.ClearBursts` | imageAPI/lib/LCD_1inch5.py:239-245 | `clear` sends 134400 bytes of 0xFF in the same 33 bursts |
| `Lcd1inch5Driver.InitTableLayout` | imageAPI/lib/LCD_1inch5.py:187-197 | `Init` ends with 0x3A/0x55, 0x35/0x00, then 0x21, 0x11, 0x29 |
| `Lcd0inch85Driver.Lcd0inch85.constructor` | imageAPI/lib/LCD_0inch85.py:5 | a new driver starts on a fresh bus with an empty trace |
| `Lcd0inch85Driver.Lcd0inch85.Command` | imageAPI/lib/LCD_0inch85.py:9-11 | DC low, then exactly the one command byte |
| `Lcd0inch85Driver.Lcd0inch85.Data` | imageAPI/lib/LCD_0inch85.py:13-15 | DC high, then exactly the one data byte |
| `Lcd0inch85Driver.Lcd0inch85.SendOps` | imageAPI/lib/LCD_0inch85.py:26-113 | a run of command and data calls appends their events, in order |
| `Lcd0inch85Driver.Lcd0inch85.Reset` | imageAPI/lib/LCD_0inch85.py:17-24 | RST is driven high, low, high, in that order |
| `Lcd0inch85Driver.Lcd0inch85.Init` | imageAPI/lib/LCD_0inch85.py:26-113 | module set-up, the reset pulse, then the vendor register table |
| `Lcd0inch85Driver.Lcd0inch85.SetWindows` | imageAPI/lib/LCD_0inch85.py:115-135 | the window stream with the columns shifted by 2 and the rows by 1 |
| `Lcd0inch85Driver.Lcd0inch85.ShowImage` | imageAPI/lib/LCD_0inch85.py:137-155 | it fails if and only if the image is not 128x128, and then touches nothing; otherwise it sends the window, DC high, and the packed image in bursts |
| `Lcd0inch85Driver.Lcd0inch85.Clear` | imageAPI/lib/LCD_0inch85.py:157-163 | the full-panel window, DC high, then `128*128*2` bytes of 0xFF in bursts |
| `Lcd0inch85Driver.SetWindowsLatches` | imageAPI/lib/LCD_0inch85.py:115-135 | the panel sets columns `x0+2 .. x1+1` and rows `y0+1 .. y1` |
| `Lcd0inch85Driver.FullPanelWindow` | imageAPI/lib/LCD_0inch85.py:115-135 | the full-panel window is columns 2..129 and rows 1..128 |
| `Lcd0inch85Driver.FullFrameTrace` | imageAPI/lib/LCD_0inch85.py:152-155 | the full-panel window, DC high, then one SPI write per 4096-byte burst of the buffer |
| `Lcd0inch85Driver.FrameBursts` | imageAPI/lib/LCD_0inch85.py:146-155 | a frame is 32768 bytes in exactly 8 full bursts, burst `k` being bytes `4096k .. 4096(k+1)`, and together they are the buffer |
| `Lcd0inch85Driver.ClearBursts` | imageAPI/lib/LCD_0inch85.py:157-163 | `clear` sends 8 full bursts of 0xFF |
| `Lcd0inch85Driver.InitTableLayout` | imageAPI/lib/LCD_0inch85.py:56-113 | `Init` sets pixel format 0x3A/0x05 and ends with 0x21, 0x11, 0x29 |

## Left out

- Network and process I/O is not modelled: the HTTP requests, their JSON, base64 encoding of the picture, the `libcamera-still` call and `os.makedirs`. A capture is given to `Session.ImageAnalyzer.CaptureAndDescribe` as its outcome. The description is whatever text the requests produced, including their error messages.
- The reply handling around the digit parse is not modelled: the status check, the JSON access and the outer exception handler. Each of these gives 0, which `ParseRotationReply` can also return. The rotation of the saved picture by the detected angle is left out too, because only a file changes.
- PIL rendering is replaced by the `measure` parameter. This covers font loading and its fallback chain, `textbbox`, `draw.text`, `rotate` and `resize`. A frame is its size plus the list of text placements; pixels are not modelled.
- Viewport.DisplayTextOnLcd: the panel's `clear()` and `ShowImage` calls are not issued on the bus. The result is the frame that would be shown. The driver's size check on that frame is covered by `FrameMatchesPanel`.
- Session.ImageAnalyzer.constructor: `LCD_1inch5()`, `Init()` and `clear()` at start-up are not replayed on a bus. Those operations are modelled in `Lcd1inch5Driver`.
- GPIO polling of the buttons, debounce and reset delays, logging and `print` are left out. Only the order of pin levels and of display calls is kept.
- The `lcdconfig.RaspberryPi` base class is not part of this model. `module_init` is a single trace event, and `digital_write`, `GPIO.output` and `spi_writebyte` only record what they are given.
- Both `Init` methods are straight-line calls in the source. The model replays them from a constant table, in source order. The meaning of the vendor gamma, porch and power registers is not modelled.
- `ShowImage` raises `ValueError` in the source. The model returns `Fail(SizeMismatch(width, height))` instead.
- The `if not words` branch of the wrapper is not modelled. It cannot be reached, because `WordsEmptyIff` proves that a paragraph has no words only when it is blank, and a blank paragraph is already handled before it.
- `str.isdigit` is modelled only on Latin-1 characters. The reply is sanitised before the filter runs, so no other character reaches it.
- Session.ButtonMaxScroll: the down button's bound `(height - 4) // 12` is kept as written, although it is not the renderer's `(height - 28) // 16`. `TailNeverShown` and `DownAtBoundShowsNextWindow` state what it makes the panel show.
- `main` never uses the 0.85-inch driver. It is modelled on its own.
