# repeat-chat-ai, modelled in Dafny

repeat-chat-ai is a listening-practice tool. Two AI speakers, A and B, hold a
dialogue. Each line is shown, cut into sentences, and each sentence is read
aloud from a synthesized audio file. The learner presses space to hear a
sentence again or Enter to move on. A background prefetch generates and
compiles the next line while the current one plays.

`repeat_chat.dfy` holds one module, `RepeatChat`, in four parts that follow
the program:

1. **Text.** `clean_text` is `CleanText`, which strips whitespace and then
   quote characters. `split_sentences` is `SplitSentences`: the regex
   `[^.!?]+[.!?]` becomes the scanner `Matches`, and each match is then
   stripped.
2. **Turns.** `build_history_for` is the method `BuildHistoryFor`.
   `build_turn_commands` is the method `BuildTurnCommands`, specified by the
   function `TurnCommands`. It also returns, as `Synthesize` effects, the
   `text_to_speech` calls it makes.
3. **The command deque.** `Command` is `Print | Speak | Pause(repeat) |
   Cleanup`. One `popleft` plus `do_command` is `NextQueue`. A pause
   answered with space pushes itself back, then its replay. `Run` executes
   commands from the front and reads a key only at a pause, as the program
   does.
4. **The `repl` loop.** The class `Session` holds:
   - the deque, the `prefetching` flag and the pending slot (`next_turn_data`);
   - the current role, the history and the `first_prompt` flag;
   - the role and index a prefetch captured;
   - a log of everything the program did to the outside world.

   Its methods are the loop's steps: start a prefetch, complete it, drain,
   execute, interrupt.

The outside world is represented by parameters and effects:
- The chat model's reply is a parameter of `Complete`.
- The key read at a pause is a `Key` parameter, which can only be space or
  newline.
- Whether an audio file exists and holds at least 100 bytes is a `bool`
  parameter.
- Output, speech synthesis, playback, file removal and chat requests are
  entries in the `log` field.

## Model

| member | source | states |
|---|---|---|
| RepeatChat.TrimLeftSuffix | repeat_chat_ai.py:23 | `lstrip` keeps a suffix of the input; it drops only characters of the set, and what it keeps does not start with one |
| RepeatChat.TrimRightPrefix | repeat_chat_ai.py:23 | `rstrip` keeps a prefix of the input; it drops only characters of the set, and what it keeps does not end with one |
| RepeatChat.StripTrims | repeat_chat_ai.py:23 | `strip` returns a contiguous slice of the input, cut only from characters of the set at both ends, that neither starts nor ends with one of them |
| RepeatChat.TrimmedTwice | repeat_chat_ai.py:23 | cutting a slice out of a slice is one cut with the union of both character sets, at the sum of the offsets |
| RepeatChat.StripTwice | repeat_chat_ai.py:23 | two strips in a row cut one slice, dropping only characters of either set |
| RepeatChat.CleanTextTrims | repeat_chat_ai.py:22-23 | `clean_text` returns a contiguous substring of its input. Only whitespace and quote characters are removed around it, and it neither starts nor ends with a quote |
| RepeatChat.FirstTerminator | repeat_chat_ai.py:109 | the position of the first `.`, `!` or `?`: every earlier character is a non-terminator, and it is the length when there is none |
| RepeatChat.Matches | repeat_chat_ai.py:109 | every match of `[^.!?]+[.!?]` is at least two characters long, ends in a terminator and holds no other |
| RepeatChat.StripMatch | repeat_chat_ai.py:109 | a stripped match is still a sentence: it ends in its terminator, holds no other and does not start with whitespace |
| RepeatChat.SplitSentencesAreSentences | repeat_chat_ai.py:107-109 | every returned segment ends in `.`, `!` or `?`, contains no other terminator and does not start with whitespace |
| RepeatChat.SentenceEndsAfterRun | repeat_chat_ai.py:109 | a run of non-terminators closed by a terminator holds exactly one sentence end |
| RepeatChat.SentenceEndsNone | repeat_chat_ai.py:109 | text with no terminator holds no sentence end |
| RepeatChat.MatchesCount | repeat_chat_ai.py:109 | the regex finds exactly one match per sentence end, i.e. per terminator that directly follows a non-terminator |
| RepeatChat.SplitSentencesCount | repeat_chat_ai.py:107-109 | `split_sentences` returns one segment per sentence end, an independent count over the raw text |
| RepeatChat.NoTerminatorNoSentences | repeat_chat_ai.py:107-109 | text without a terminator yields the empty list |
| RepeatChat.FirstTerminatorPrefix | repeat_chat_ai.py:109 | appending text does not move a terminator already present |
| RepeatChat.MatchesAppend | repeat_chat_ai.py:109 | text that is empty or ends in a terminator is matched independently of any text that follows |
| RepeatChat.MatchOfSentence | repeat_chat_ai.py:109 | a maximal run of non-terminators closed by its terminator is matched whole: the match is exactly that text |
| RepeatChat.TerminatorsNoMatch | repeat_chat_ai.py:109 | text made only of terminators holds no match |
| RepeatChat.MatchesStep | repeat_chat_ai.py:109 | after any skipped terminators, the next match is, word for word, the run of non-terminators up to and including the next terminator; scanning then goes on with the rest |
| RepeatChat.SplitSentencesAppend | repeat_chat_ai.py:107-109 | the segments of such text come first, in order, when more text follows |
| RepeatChat.SplitSentencesDropsTail | repeat_chat_ai.py:107-109 | text after the last terminator is never returned |
| RepeatChat.RepeatedTerminator | repeat_chat_ai.py:107-109 | a terminator with no non-terminator before it produces nothing: `"Hi!!"` gives `["Hi!"]` |
| RepeatChat.BuildHistoryFor | repeat_chat_ai.py:45-57 | the result keeps the history's length, order and contents. An entry is `assistant` exactly when its speaker is the target role, and `user` otherwise |
| RepeatChat.DecimalDigits | repeat_chat_ai.py:29 | the f-string numeral of an index is a non-empty string of digits, of at least two digits from 10 on |
| RepeatChat.DecimalInjective | repeat_chat_ai.py:29 | distinct indices have distinct numerals |
| RepeatChat.SplitAtUnderscore | repeat_chat_ai.py:29 | `{a}_{b}` with `a` all digits splits back into `a` and `b` |
| RepeatChat.FileNameInjective | repeat_chat_ai.py:29 | `tmp_{idx}_{i}.mp3` determines `idx` and `i`, so audio files never collide, within a turn or across turns |
| RepeatChat.TurnCommandsLayout | repeat_chat_ai.py:25-35 | a turn has exactly `1 + 4n` commands for its `n` sentences, and the first is `print "{role}: {text}"`. Sentence `i` has, at `1+4i .. 4+4i`: print `"{role}: {sentence}"`, speak `f`, pause replaying speak `f`, cleanup `f`, with `f = tmp_{idx}_{i}.mp3` |
| RepeatChat.FlattenFours | repeat_chat_ai.py:28-34 | appending four commands per sentence puts sentence `i`'s four at positions `4i .. 4i+3` |
| RepeatChat.FlattenWellFormed | repeat_chat_ai.py:33 | concatenated groups whose pauses all replay a `speak` keep that property |
| RepeatChat.TurnCommandsWellFormed | repeat_chat_ai.py:33 | every pause of a compiled turn replays a `speak` command |
| RepeatChat.BuildTurnCommands | repeat_chat_ai.py:25-35 | the loop builds exactly `TurnCommands(role, text, idx)`. It makes one `text_to_speech(sentence_i, tmp_{idx}_{i}.mp3)` call per sentence, in order |
| RepeatChat.BuildStep | repeat_chat_ai.py:28-34 | one pass of the loop appends sentence `i`'s four commands and its synthesis request |
| RepeatChat.RemovalsAppend | repeat_chat_ai.py:189-191 | running only the cleanups of two stretches of the deque is running those of the first, then those of the second |
| RepeatChat.GroupRemovals | repeat_chat_ai.py:28-34 | the cleanups of `n` sentence groups remove `tmp_{idx}_0.mp3` … `tmp_{idx}_{n-1}.mp3`, in order |
| RepeatChat.TurnRemovals | repeat_chat_ai.py:25-35 | running only the cleanups of a whole turn removes every sentence's file exactly once, in sentence order, and nothing else |
| RepeatChat.NextQueueWellFormed | repeat_chat_ai.py:138-141 | executing a command keeps every pause in the deque replaying a `speak` |
| RepeatChat.AdvanceIsFifo | repeat_chat_ai.py:125-141 | with one Enter per pause, the deque is a plain FIFO: the commands are executed in order, a key is read only at a pause, and the run stops at the next pause with the rest untouched |
| RepeatChat.ReplaysShape | repeat_chat_ai.py:138-141 | the commands a pause answered `n` times with space executes alternate the pause and its replay: `2n+1` commands, starting and ending with the pause |
| RepeatChat.RepeatThenAdvance | repeat_chat_ai.py:136-141 | at a pause `P` at the front, `n` spaces and then Enter execute `P, replay, P, …, P`. The run then goes on with the rest of the deque and the remaining keys, exactly as if `P` had been answered with Enter at once |
| RepeatChat.OtherTurnRole | repeat_chat_ai.py:162 | the prefetched role `"B" if role == "A" else "A"` is the speaker of the next turn |
| RepeatChat.AlternatesAppend | repeat_chat_ai.py:168 | appending the next speaker's line keeps the history alternating from A |
| RepeatChat.PendingLatestAppend | repeat_chat_ai.py:168-171 | compiling the line just appended, under its history index, is what the slot must hold |
| RepeatChat.CompleteKeepsTurns | repeat_chat_ai.py:165-172 | a completed prefetch keeps the turn bookkeeping of the loop |
| RepeatChat.Session.constructor | repeat_chat_ai.py:148-156 | the history is A's opening line, and the deque is that line compiled as turn 0. There is no prefetch and no pending turn, the first prompt is still to come, the loop has not ended, and its speech requests are logged |
| RepeatChat.Session.TryPrefetch | repeat_chat_ai.py:160-163 | a prefetch starts exactly when none is in flight, the slot is empty and the deque holds fewer than 4 commands. It captures the other role and `len(history)` as the index |
| RepeatChat.Session.Complete | repeat_chat_ai.py:165-172 | a completion logs the request, built from the history as the answering role sees it. It appends the cleaned reply to the history and compiles it under the captured index. It fills the slot and clears the flag together, and keeps `Valid` |
| RepeatChat.Session.TryDrain | repeat_chat_ai.py:176-181 | a drain happens exactly when the deque is empty and a turn is pending. It moves that turn's commands in order, empties the slot and makes the turn's role current. Turns enter the deque with indices 0, 1, 2, … and alternating roles |
| RepeatChat.Session.DoCommand | repeat_chat_ai.py:125-146 | print, speak, pause and cleanup have the effects listed in `CommandEffects`. A pause answered with space pushes itself, then its replay, onto the front. The first pause shows the long hint and clears the flag |
| RepeatChat.Session.ExecuteNext | repeat_chat_ai.py:183-185 | popping and executing the front command leaves the deque `NextQueue(old, key)` and keeps `Valid` |
| RepeatChat.Session.Iteration | repeat_chat_ai.py:159-187 | one pass of the loop, either: a prefetch trigger, then a drain into an empty deque; or the execution of the front command; or (nothing to do) no change to the deque or the log |
| RepeatChat.Session.Interrupt | repeat_chat_ai.py:189-193 | on interrupt, exactly the cleanup commands still queued are executed, in deque order, then the goodbye line. The deque and the prompt flag are unchanged. The loop has ended: no loop step, and no second interrupt, can follow; only a completion of a prefetch already in flight |

## Left out

- The chat requests themselves (`generate_chat_message`, lines 59-82) are
  foreign network calls. `Complete` receives the model's reply as a parameter
  and logs the history part of the request. The system prompt built from the
  scenario and the fixed model settings are not modelled.
- A failing chat request is not modelled. If `generate_chat_message` raises
  inside the prefetch thread (line 167), the thread dies with `prefetching`
  still true. No later prefetch starts (line 160), and once the deque is empty
  the loop sleeps forever. In the model this is a `Complete` that never comes:
  `prefetching` stays true and every later `Iteration` leaves the deque and
  the log unchanged.
- The network and file-writing part of `text_to_speech` (lines 84-97) is a
  foreign call. It is logged as one `Synthesize` effect; its failure path only
  prints, so it changes no state of the model.
- `generate_scenario` (lines 195-226) is not modelled, neither its request nor
  its labelled-line regex parse with lazy, DOTALL matching. The opening line
  reaches `Session.constructor` as a parameter.
- `play_audio` (lines 99-105) checks the file and shells out to `afplay`. This
  is file-system and process work: the existence and size check is the `audioOk`
  parameter, and playback is a `Play` effect.
- `os.remove` in the cleanup branch (lines 142-146) is a `Remove` effect that
  always succeeds. The program ignores only `FileNotFoundError` (line 145).
  Any other `OSError`, such as a permission error, escapes `do_command`. In
  the loop it ends the program, because `main` catches only
  `KeyboardInterrupt`. During the interrupt pass it skips the remaining
  cleanups and the goodbye line. The model has no such failure path.
- `get_key` (lines 111-121) is raw terminal I/O. The key it returns is the
  `Key` parameter of `DoCommand`, `ExecuteNext` and `Iteration`.
- The thread, the lock and `time.sleep(0.05)` (lines 43, 170-174, 187) are
  concurrency and timing. The background completion is the single atomic step
  `Session.Complete`, taken between two loop passes. What this loses:
  - The moment between the closure's `history.append` and the filling of the
    slot.
  - Interleaving. In the program the thread's `Ask` and `Synthesize` effects
    interleave with the foreground's `Display`, `Prompt` and `Play`.
  - A completion landing inside one loop pass, between the trigger at line 160
    and the execution at line 183. The program can produce, for instance,
    `[Ask, Synthesize…, Display(c0)]` within one pass.

  The model yields the same final state, but only the orders in which
  completions fall between passes. The `log` therefore records each side's
  effects in order, not their exact interleaving.
- The newline printed after a key is read (line 137) and the separator line
  printed before each `print` command (line 127) are not separate log
  entries. The separator is part of `Display`, and the newline is not logged.
- `main` (lines 228-245) and `debug` (lines 18-20) are command-line handling
  and diagnostic printing.
- Session.Interrupt: only the cleanups in the deque run. Three kinds of files
  survive an interrupt, as in the code:
  - the files of a turn still waiting in the pending slot;
  - the files of a prefetch in flight at that moment. Its thread is not a
    daemon, so it still runs `text_to_speech` and writes its
    `tmp_{idx}_{i}.mp3` files, and nothing removes them. In the model this is
    a `Complete` after `Interrupt`, which logs `Synthesize` effects with no
    matching `Remove`;
  - the files of turn 0 written before an interrupt during its compilation
    (see the `Session.constructor` line below).
- Session.constructor: compiling turn 0 is one atomic step, and `Interrupt`
  can only follow it. In the program, `repl` compiles turn 0 at line 153,
  before the `try` at line 158. Each sentence's `text_to_speech` is a network
  call, and a Ctrl-C during it raises `KeyboardInterrupt`, which the
  `except Exception` at line 96 does not catch. The program then leaves
  `repl`, and `main`'s handler (lines 241-242) prints the goodbye line. No
  cleanup runs, so `tmp_0_0.mp3` … `tmp_0_{k-1}.mp3`, already written, stay
  on disk. The model has no such run.
- Session.Iteration: the loop runs forever in the program. The model gives one
  pass. A run is any sequence of `Iteration` and `Complete` calls whose
  preconditions hold, ended by at most one `Interrupt`. After the interrupt
  only `Complete`, for a prefetch already in flight, can still happen.
- The program's integers are unbounded Python integers, as in the model, so
  no width is modelled.
