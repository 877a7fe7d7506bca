# logicfeed caption layout and post selection, in Dafny

logicfeed polls a social-network user's posts, keeps the new status posts
and renders each one as a "meme": the post text wrapped, centred and
stacked above the bottom margin of a background image, each line drawn
with an outline. This project models the two pieces of that pipeline that
have logic of their own, and proves their properties:

- **Caption layout and drawing** (`meme.dfy`, module `Meme`), from
  `logicfeed/console/meme.py`. `GetTexts` is `get_texts` as a loop that
  moves a running `y` down line by line and fails with `TooSmall` (the
  source's `ValueError('Image is too small')`) as soon as a line would start
  left of or above the image. It is proved equal to `Layout`, the closed form
  of the caption: line `i` starts at `x = (W - w_i) / 2` and at
  `y = top + sum of (h_k + spacing) for k < i`, where
  `top = H - margin_bottom - text_height - border_size`. `DrawMeme` is
  `draw_meme`. It records the draws on a `Canvas` instead of painting
  pixels: four outline draws at `(±b, ±b)` in the order of
  `product((b, -b), repeat=2)`, then one fill draw at the line's origin.
  Text measuring (`draw.textsize` with the chosen font) is the parameter
  `measure`. Line breaking (`textwrap.wrap`) is the parameter `wrap`.
  Neither is interpreted.
- **Post selection** (`post_selection.dfy`, module `PostSelection`), from
  `get_posts`. It is defined the same way in `logicfeed.py` and in
  `logicfeed/console/tasks.py`, so both are the single function
  `PostSelection.GetPosts`: `filter(is_status, takewhile(is_post_after, feed))`
  over the feed fetched from `'/' + userid + '/posts'`. Fetching is the
  parameter `fetch`. Timestamps are integers.
- **Post stream and start time** (`logicfeed.dfy`, module `LogicFeed`),
  from `logicfeed.py`. `PostStream` holds the watermark of
  `get_post_stream` and the posts yielded so far. `Poll` is one iteration of
  its loop. `StartTimeFormat` is `starttime`: it gives the format of the
  first pattern that matches the whole string, or the `ArgumentTypeError`
  message when no pattern matches.

`wrappers.dfy` holds the `Option` and `Result` types used for the source's
exceptions.

Three points of the code shape the model:

- `get_texts` always calls `wrap`, even for a message that fits on one
  line (`meme.py:96`).
- The fit check tests every line's `y`, not just the first line's
  (`meme.py:106`). `Meme.FitsIffTall` shows that checking the top line is
  enough when no line height plus spacing is negative.
- A caption that does not fit raises `ValueError('Image is too small')`,
  which is `TooSmall` here. A message that measures 0 pixels wide raises a
  division by zero (`meme.py:95`), which is `ZeroWidth` here.

## Model

| member | source | states |
|---|---|---|
| `Meme.WrapWidthChars` | logicfeed/console/meme.py:94-95 | the character wrap width is `len(message) * wrap_width / width` truncated toward zero: floor for a non-negative product, ceiling for a negative one (bounds on `r * width` both ways) |
| `Meme.GetTexts` | logicfeed/console/meme.py:77-110 | `ZeroWidth` exactly when the message measures 0 wide; otherwise the loop's result equals the closed-form `Layout` of the wrapped lines, each line measured on its own: every line placed, or `TooSmall` with no partial list |
| `Meme.AdvanceTotal` | logicfeed/console/meme.py:104-105 | stacking lines moves `y` down by their total height plus one spacing per line |
| `Meme.StackStep` | logicfeed/console/meme.py:104-105 | consecutive lines satisfy `y[i+1] = y[i] + h[i] + spacing` |
| `Meme.FirstLineY` | logicfeed/console/meme.py:98-100 | the first line's `y` is `H - margin_bottom - (sum of heights + spacing * (n - 1)) - border_size` |
| `Meme.BlockBottom` | logicfeed/console/meme.py:99-105 | the last line's `y` plus its height is `H - margin_bottom - border_size` |
| `Meme.LinesDescend` | logicfeed/console/meme.py:104-105 | when every height plus spacing is non-negative, no line starts above an earlier one |
| `Meme.LinesStrictlyDescend` | logicfeed/console/meme.py:104-105 | when every height plus spacing is positive, the `y` values strictly increase |
| `Meme.Centred` | logicfeed/console/meme.py:102-106 | each line is centred, `2x + w = W`, and `x >= 0` exactly when the line is no wider than the image |
| `Meme.LayoutOk` | logicfeed/console/meme.py:103-110 | on success: one entry per line, in order, text unchanged, centred, at its stacked `y`, with `x >= 0` and `y >= 0` |
| `Meme.LayoutErr` | logicfeed/console/meme.py:104-107 | the layout is `TooSmall` exactly when some line is wider than the image or would start above it |
| `Meme.FitsIffTall` | logicfeed/console/meme.py:99-107 | with non-negative steps, the caption fits exactly when no line is wider than the image and `H >= margin_bottom + text_height + border_size`, so one pixel less height fails |
| `Meme.HelloWorldFits` | logicfeed/console/meme.py:99-108 | "Hello World", 110x24, on 400x200 with margin 30 and no border is placed at (145, 146) |
| `Meme.HelloWorldTooShort` | logicfeed/console/meme.py:99-107 | the same line on a 400x20 image is `TooSmall` |
| `Meme.BorderOffsets` | logicfeed/console/meme.py:66 | `product((b, -b), repeat=2)` is (b,b), (b,-b), (-b,b), (-b,-b), in that order |
| `Meme.LineDraws` | logicfeed/console/meme.py:65-70 | each line yields exactly five draws |
| `Meme.LineDrawsExplicit` | logicfeed/console/meme.py:65-70 | a line's draws are border at (x+b,y+b), (x+b,y-b), (x-b,y+b), (x-b,y-b), then fill at (x,y) |
| `Meme.ZeroBorderDrawsInPlace` | logicfeed/console/meme.py:66-70 | with `b = 0` all five draws of a line land on its own origin |
| `Meme.DrawPlanAt` | logicfeed/console/meme.py:65-70 | the plan has `5n` draws, and draw `5i + k` is draw `k` of line `i` |
| `Meme.Canvas.constructor` | logicfeed/console/meme.py:58-59 | a fresh canvas of the image's size with nothing drawn |
| `Meme.Canvas.DrawText` | logicfeed/console/meme.py:68 | a draw appends exactly one command and changes nothing else |
| `Meme.DrawMeme` | logicfeed/console/meme.py:58-70 | if layout fails, the error is returned and nothing is drawn; otherwise the canvas receives exactly the draw plan of the laid-out lines, in order |
| `PostSelection.NewerPrefix` | logicfeed.py:27-29 | `takewhile` yields a prefix of the feed, every post of it newer than `since`, and the post after it (if any) is not newer |
| `PostSelection.Statuses` | logicfeed.py:31-32 | `filter` keeps only status posts, all from its input, and it keeps every status post of its input |
| `PostSelection.StatusesMultiplicity` | logicfeed.py:31-35 | `filter` keeps each status post exactly as many times as it occurs in its input, and no other post |
| `PostSelection.GetPosts` | logicfeed.py:26-35 | every post returned is a status newer than `since`; the result is an order-preserving subsequence of the longest newer prefix of the user's feed, and so of the feed, and holds every status post of that prefix |
| `PostSelection.StatusesSubsequence` | logicfeed/console/tasks.py:24-28 | the filtered posts are an order-preserving subsequence of the posts filtered |
| `PostSelection.SelectIsSubsequence` | logicfeed/console/tasks.py:28 | the result is an order-preserving subsequence of the longest newer prefix and of the feed, holding every status of that prefix |
| `PostSelection.OldPostEndsSelection` | logicfeed/console/tasks.py:28 | a post that is not newer than `since` ends the selection: the result depends only on the posts before it |
| `PostSelection.NewerPostBehindOldIsSkipped` | logicfeed.py:35 | a newer status behind an older post is not returned |
| `PostSelection.FirstSelectedIsNewest` | logicfeed.py:43 | in a newest-first feed, the first status kept is the newest one kept |
| `LogicFeed.PostStream.constructor` | logicfeed.py:39 | the watermark starts at `since` when given, otherwise at the current time |
| `LogicFeed.PostStream.Poll` | logicfeed.py:41-45 | the posts are yielded in the returned order; the watermark becomes `posts[0].created_time` when there are posts and is unchanged otherwise, so it never decreases and rises whenever something is yielded |
| `LogicFeed.NoPostYieldedTwice` | logicfeed.py:41-43 | for a newest-first feed, no post yielded by one poll is yielded by the next |
| `LogicFeed.StartTimeFormat` | logicfeed.py:51-62 | the format chosen belongs to the first pattern in list order that matches the whole string; the error, with its message, is returned exactly when none matches |
| `LogicFeed.AtMostOneFormatMatches` | logicfeed.py:52-58 | no string matches two of the seven patterns |
| `LogicFeed.StartTimeExamples` | logicfeed.py:52-62 | "2014-06" is read with `%Y-%m`; "2014-6" matches no pattern |

## Left out

- Image decoding, font loading, pixel rendering and PNG encoding (`meme.py:58-60,72-74`) call the imaging library. `DrawMeme` records draw commands on a `Canvas` and returns `Ok(())` in place of the PNG bytes.
- Colour strings (`meme.py:20-40`) are passed through uninterpreted. Parsing them is the imaging library's job.
- `textwrap.wrap` is the uninterpreted parameter `wrap`. This includes its whitespace handling and its own `ValueError` for a width of 0 or less, so no property of the wrapped lines beyond what `wrap` returns is claimed.
- Meme.WrapWidthChars: computed exactly, while the source divides in floating point (`len / width * wrap_width`). Float rounding can make the source's value differ by one at exact quotients.
- Meme.GetTexts: `x` is an exact real, while the source's `/ 2` is a float. Pixel extents are non-negative integers, as the imaging library returns them.
- The font and font size only influence `measure` and are not separate inputs.
- Authentication, paging and network access, including the global `fbconsole.AUTH_SCOPE` assignment (`logicfeed.py:14-17`, `tasks.py:7-10`): the fetched feed is the parameter `fetch`.
- Parsing `created_time` and the start time with `datetime.strptime` (`logicfeed.py:20-23,61`, `tasks.py:13-16`). Timestamps are integers. `StartTimeFormat` returns the chosen format instead of the parsed time.
- Regular-expression subtleties: `$` also matching before a final newline, and `\d` matching non-ASCII digits. A pattern matches when the whole string has its length and each character is an ASCII digit or the literal.
- `time.sleep` and the endless generator loop (`logicfeed.py:40,46`). `PostStream.Poll` is one iteration, and the current time is the constructor's `now` parameter.
- LogicFeed.NoPostYieldedTwice: assumes the feed lists posts newest first, as the social network does. The code sets the watermark from the first returned post only, so on a feed in any other order a post can be yielded again.
- PostSelection.Statuses: its own contract states membership only. How many times each post is kept is stated by the lemma `StatusesMultiplicity`. A quantified multiset clause on the function itself makes the proofs of its callers run out of resource.
- Argument parsing and JSON printing (`logicfeed.py:64-73`), and the Django models, views, admin, URL routing and settings.
