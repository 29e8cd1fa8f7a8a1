# Masked Spook co-simulator in Dafny

This project models the host-side masking co-simulator of the masked Spook
software, together with the firmware step it has to agree with:

- **Masked Clyde-128** (`interface/spook_masked.py`). A 32-bit word is shared
  as D words whose XOR is the secret. The model covers the gadgets on
  sharings: share-wise XOR, ISW multiplication, the SNI ring refresh (defined
  for D ≤ 8), and the injection of public values into share 0. It also covers
  the masked round built from them: the bitsliced S-box, the share-wise
  L-box, the 4-bit round-constant LFSR and the three-entry tweak schedule.
  Module `Clyde` holds an unmasked reference cipher. Module `MaskedClyde`
  proves the following.
  - Unmasking commutes with every layer and with the whole encryption.
  - The encryption fails exactly when a round runs at order nine or more.
  - The number of random words it draws is exact.
- **The PRNG tape and key helpers** (`interface/utils.py`).
  - `get_random_tape` and `fill_table` are modelled as a tape datatype
    `Uninit(seed) | Running(index, table, core)`. The tape is threaded
    explicitly and buffered in a 16-word table.
  - The tape is proved to read, word for word, an independent reference
    stream over the permutation `shadow`.
  - `mask`, `umask` and `simple_refresh` work on flat 4·D-word keys.
- **The host's mirror of the board** (`interface/SpookTopLevel.py`).
  - `set_data` for the modelled buffers.
  - `unroll_inputs`, which predicts the key, seed and nonce of every
    encryption of a batch.
  - The 4-byte header that `send_data_uart` writes.
- **The board** (`board_m0/Src/main.c`).
  - The receive callback: the header decode, the seed and key receipt hooks,
    and the per-encryption update of PRNG state, nonce and key in the batch
    loop.
  - Its `simple_refresh`.

Module `LockStep` ties the host and the board together. The opening of a
capture session puts the host's mirror in step with the board from any board
that holds a D-share key and waits for a header (the boot state included).
After every later transfer the host drives, the mirror still holds what the
board holds, for the host with the board's mode test (`TopLevel.UnrollInputs`;
the host as written only for flags 0 and 1, see Findings), with PRGON on and
for transfers of at least one word that fit the board's buffer
(`Protocol.Fits`). The tables `unroll_inputs` returns are then the inputs the
board's encryptions used.

`shadow`, the masking order D and the host's PRGON switch are parameters
(`Words.Params`). Every result holds for every `shadow`. The random words
that `np.random.randint` supplies to `mask` are a parameter as well.

Two behaviours of the code are worth stating:

- Fixed-key keys chain across batches only after unmasking. Within a batch,
  every key refreshes the key the batch started from, so two batches of n1
  and n2 encryptions do not reproduce the keys of one batch of n1 + n2 word
  for word (`TopLevel.BatchesChain`, `TopLevel.HostAfterChain`).
- The header's high length byte is `len // 256` stored into a `uint8` array.
  It keeps the value modulo 256, so the board decodes the length modulo
  65536.

## Model

| member | source | states |
|---|---|---|
| `Gadgets.AddShares` | interface/spook_masked.py:119-125 | `add_shares` returns as many shares as its inputs, share i being the sum of the two shares i. Its meaning for the secrets is `Gadgets.AddSharesFold`. |
| `Gadgets.AddSharesFold` | interface/spook_masked.py:119-125 | Over any algebra with the XOR-like laws, the secret of a share-wise sum is the sum of the two secrets. |
| `Sharing.AddSharesUnmask` | interface/spook_masked.py:119-125 | For 32-bit words, `add_shares` yields a sharing of the XOR of the two secrets. |
| `MaskedState.AddMaskedState` | interface/spook_masked.py:127-135 | `add_clyde128_masked_state`: word j of the result is the XOR of the two words j. Lane by lane it is the share-wise sum, and it unmasks to the XOR of the two unmasked blocks. |
| `MaskedState.AddStateUnmask` | interface/spook_masked.py:132-135 | Adding two masked states XORs the blocks they stand for. |
| `Gadgets.MultShares` | interface/spook_masked.py:157-175 | `mult_shares` takes D(D-1)/2 drawn words and returns D shares. That they share the product is `Gadgets.MultSharesFold`. |
| `Gadgets.PairsCount` | interface/spook_masked.py:168-170 | Row by row, the inner loop of `mult_shares` draws D(D-1)/2 words. |
| `Gadgets.IswColumnFold` | interface/spook_masked.py:170-175 | One inner step adds s + (a[i]b[j] + s) + a[j]b[i] to the secret. The drawn word cancels. |
| `Gadgets.IswRowsFold` | interface/spook_masked.py:168-175 | The pair loops add every cross term a[k]b[l] + a[l]b[k] (k < l) to the secret, whatever words they draw. |
| `Gadgets.DiagCross` | interface/spook_masked.py:165-166 | The diagonal products plus all cross terms make the product of the two secrets. |
| `Gadgets.MultSharesFold` | interface/spook_masked.py:157-175 | Whatever words it draws, ISW multiplication yields a sharing of the product of the secrets. |
| `Sharing.MultSharesUnmask` | interface/spook_masked.py:157-175 | For 32-bit words, `mult_shares` yields a sharing of the AND of the secrets. |
| `MaskedClyde.MultMasked` | interface/spook_masked.py:163-175 | `mult_shares` on the global tape. It keeps the order and shares the AND of the secrets. It never fails and moves the tape on by exactly D(D-1)/2 one-word draws. |
| `Gadgets.RefreshBlock` | interface/spook_masked.py:150-155 | `refresh_block_j` takes one drawn word per share and keeps the number of shares. That it keeps the secret is `Gadgets.RefreshBlockFold`. |
| `Gadgets.RefreshStepFold` | interface/spook_masked.py:153-155 | One step of `refresh_block_j` adds its word to two shares, so the secret is unchanged. |
| `Gadgets.RefreshBlockFold` | interface/spook_masked.py:150-155 | `refresh_block_j` keeps the secret whatever words it draws. |
| `Gadgets.RefreshBlockZero` | interface/spook_masked.py:150-155 | With zero words (PRGON off), `refresh_block_j` leaves every share as it is. |
| `Gadgets.Refresh` | interface/spook_masked.py:137-148 | `refresh` fails exactly when the sharing has nine or more shares, with an error naming the order. Otherwise it keeps the number of shares. |
| `Gadgets.RefreshFold` | interface/spook_masked.py:137-155 | A successful refresh keeps the secret. With zero words it keeps every share. |
| `Sharing.RefreshUnmask` | interface/spook_masked.py:137-155 | For 32-bit words, a successful `refresh` keeps the XOR of the shares. With zero words it changes nothing. |
| `MaskedClyde.RefreshMasked` | interface/spook_masked.py:137-155 | `refresh` on the tape fails iff D ≥ 9. Otherwise it keeps the secret and draws exactly D words below four shares and 2D up to eight. |
| `MaskedState.XorPublic` | interface/spook_masked.py:99-107 | `XORLS_MASK` changes only share 0 of each lane, by the lane's public word. Every other share is left as it is. |
| `MaskedState.XorPublicUnmask` | interface/spook_masked.py:99-107 | Injecting a public block into share 0 XORs it into the unmasked block. |
| `MaskedState.AddKeyTweakUnmask` | interface/spook_masked.py:92-93 | Adding the masked key and then a public tweak adds both to the unmasked state. |
| `Clyde.RotrIsRotation` | interface/spook_masked.py:228-229 | For every amount 0 < c < 32, the shift-and-mask `rotr` is the 32-bit right rotation. |
| `Clyde.RotrXor` | interface/spook_masked.py:228-229 | For every amount of the L-box, `rotr` distributes over XOR. |
| `Clyde.Rotr` | interface/spook_masked.py:228-229 | No contract of its own. `Clyde.RotrIsRotation` states that for every amount 0 < c < 32 it is the 32-bit right rotation, and `Clyde.RotrXor` that it distributes over XOR. |
| `Clyde.LBox` | interface/spook_masked.py:211-227 | `lbox`, step for step. It has no contract of its own; `Clyde.LBoxAdditive` states that it is linear over XOR. |
| `Clyde.LBoxAdditive` | interface/spook_masked.py:211-227 | `lbox` is linear over XOR: applied to the sum of two pairs it gives the sum of their images. |
| `Clyde.LBoxLeftAdditive` | interface/spook_masked.py:211-227 | The first output word of `lbox` is an additive map of the share algebra. |
| `Clyde.LBoxRightAdditive` | interface/spook_masked.py:211-227 | The second output word of `lbox` is an additive map of the share algebra. |
| `Gadgets.MapPairsFold` | interface/spook_masked.py:208-210 | An additive map applied share by share maps the secrets. |
| `MaskedClyde.LBoxMasked` | interface/spook_masked.py:203-210 | `lbox_masked` applies `lbox` to each pair of shares of lanes (0, 1) and (2, 3), and it unmasks to the L-box of the unmasked block. |
| `MaskedClyde.LinearMasked` | interface/spook_masked.py:109-117 | The L-box followed by `XORCST_MASK` unmasks to the L-box of the block XOR the round constant of the register, bit 3 − i in lane i. |
| `Clyde.SBox` | interface/spook_masked.py:188-201 | The bitsliced S-box on unmasked lanes. It has no contract of its own; `Clyde.SBoxInvertible` and `Clyde.SBoxSurjective` show it is a bijection against `SBoxInv`, and `MaskedClyde.SboxLayerUnmask` ties the masked layer to it. |
| `Clyde.SBoxInvertible` | interface/spook_masked.py:188-201 | The reference S-box is undone by its inverse. |
| `Clyde.SBoxSurjective` | interface/spook_masked.py:188-201 | The inverse is undone by the S-box, so the S-box is a bijection on blocks. |
| `MaskedClyde.SboxTailUnmask` | interface/spook_masked.py:192-201 | Once y1 shares ab + c, the last three multiplications share the S-box output (y0, y1, y0·y1 + d, y1·d + a). |
| `MaskedClyde.SboxLayerMasked` | interface/spook_masked.py:177-201 | `sbox_layer_masked` fails exactly when the refresh is asked for at D ≥ 9, with that error. Otherwise it keeps the order. |
| `MaskedClyde.SboxLayerUnmask` | interface/spook_masked.py:177-201 | With or without the refresh, the masked S-box layer unmasks to the S-box of the unmasked block. |
| `MaskedClyde.SboxLayerCost` | interface/spook_masked.py:177-201 | The layer draws exactly four multiplications' worth of words, plus the refresh's words when the flag is set. |
| `Clyde.LfsrNext` | interface/spook_masked.py:78-79 | The LFSR update, with Python's precedence of `^` over `\|`. It has no contract of its own; `Clyde.LfsrSchedule` and `Clyde.LfsrFirstValues` state the sequence it produces. |
| `Clyde.LfsrSchedule` | interface/spook_masked.py:78-79 | Started at 8, the register runs through the twelve round constants of Clyde-128 and has period 15. |
| `Clyde.LfsrFirstValues` | interface/spook_masked.py:67-68 | The first fifteen values from 8 are the orbit 8, 4, 2, 1, 12, 6, 3, 13, 10, 5, 14, 7, 15, 11, 9, all nonzero 4-bit values, and the sixteenth is 8 again. |
| `Clyde.TweakSchedule` | interface/spook_masked.py:61-63 | `tk[0]` is the tweak, and `tk[1]` XOR `tk[2]` is the tweak too. `tk[1]` carries t0, t1 in lanes 2, 3 and `tk[2]` carries t2, t3 in lanes 0, 1. |
| `Clyde.OffsetStep` | interface/spook_masked.py:90-93 | Shifting `off` from 0x924 keeps it among its seven values and selects tweak 1, 2, 0, 1, 2, 0, then 0. Index 3 never occurs. |
| `MaskedClyde.StepMaskedUnmask` | interface/spook_masked.py:70-79 | Unmasking commutes with one S-box layer followed by the L-box and round constant. |
| `MaskedClyde.FullRoundMasked` | interface/spook_masked.py:69-93 | A full masked round fails exactly when D ≥ 9. Otherwise it keeps the order. |
| `MaskedClyde.FullRoundUnmask` | interface/spook_masked.py:69-93 | Unmasking commutes with a full round: two steps, the masked key, and the tweak the shifted offset selects. |
| `MaskedClyde.FullRoundCost` | interface/spook_masked.py:69-93 | A full round draws exactly a refreshed and a plain S-box layer's words. |
| `MaskedClyde.LastRoundUnmask` | interface/spook_masked.py:74-85 | When the run stops after the first (`step` 0) or second (`step` 1) S-box layer of the last round, unmasking commutes with what was computed. |
| `MaskedClyde.MaskedRoundsFail` | interface/spook_masked.py:69-94 | The masked rounds fail exactly when a round is left and D ≥ 9. |
| `MaskedClyde.MaskedRoundsUnmask` | interface/spook_masked.py:69-94 | The masked rounds compute the reference rounds on the unmasked state and key. |
| `MaskedClyde.MaskedRoundsCost` | interface/spook_masked.py:69-94 | The masked rounds move the tape on by exactly `RoundsDraws` words. |
| `MaskedClyde.MaskedRounds` | interface/spook_masked.py:69-94 | A successful run keeps D shares per word. What the rounds compute is stated by `MaskedRoundsFail` (failure exactly when a round is left and D ≥ 9), `MaskedRoundsUnmask` (the reference rounds on the unmasked state) and `MaskedRoundsCost` (the tape moves on by `RoundsDraws` words). |
| `MaskedClyde.InitialState` | interface/spook_masked.py:64-66 | The starting masked state unmasks to the key XOR `tk[0]` XOR the plaintext. |
| `MaskedClyde.EncryptMasked` | interface/spook_masked.py:41-94 | `clyde128_encrypt_masked` returns 4·D words on success. Its failure condition, its unmasked value and its draw count are the three lemmas below. |
| `MaskedClyde.EncryptMaskedFail` | interface/spook_masked.py:41-94 | `clyde128_encrypt_masked` fails iff Nr > 0 and D ≥ 9, with the refresh's error. |
| `MaskedClyde.EncryptMaskedUnmask` | interface/spook_masked.py:41-94 | On success, `umask` of the result is reference Clyde-128 of the plaintext under the tweak and under `umask` of the masked key, stopped as Nr and `step` say. |
| `MaskedClyde.EncryptMaskedCost` | interface/spook_masked.py:41-94 | On success, `seed_tmp` has moved on by exactly `RoundsDraws(D, Nr, step)` one-word draws. |
| `MaskedClyde.EncryptDrawsClosed` | interface/spook_masked.py:69-93 | The words drawn are, in closed form, (Nr − 1)(8T + R) plus 4T + R or 8T + R for the last round, where T = D(D-1)/2 and R is the refresh's words. No rounds draw nothing. |
| `MaskedState.SplitFlatten` | interface/spook_masked.py:70-73 | Cutting a flat 4·D vector into lanes `[0:D]`, `[D:2D]`, … and joining them back is the identity. |
| `MaskedState.FlattenSplit` | interface/spook_masked.py:70-73 | Joining the lanes and cutting them again gives the lanes back. |
| `Gadgets.MaskLaneFold` | interface/utils.py:42-48 | A lane of `mask` stands for the key word whatever words are drawn. With zero words, its last share is the key word. |
| `Keys.MaskLanes` | interface/utils.py:42-48 | The four lanes of a masked key have D shares each and unmask to the key. |
| `Keys.MaskLaneZeros` | interface/utils.py:45-48 | With PRGON off, a lane of `mask` is D − 1 zero shares followed by the key word. |
| `Keys.Mask` | interface/utils.py:32-49 | `mask` returns 4·D words with `umask(mask(k)) == k`. With PRGON off, every lane is D − 1 zeros then the key word. |
| `MaskedState.UmaskLoopPartial` | interface/utils.py:73-74 | The loop `out[i//D] ^= k[i]`, resumed after any prefix, ends with the XOR of every lane. |
| `MaskedState.Umask` | interface/utils.py:67-75 | `umask`, the loop `out[i//D] ^= k[i]`. It has no contract of its own; `MaskedState.UmaskIsUnmask` states that it unmasks the lanes. |
| `MaskedState.UmaskIsUnmask` | interface/utils.py:67-75 | `umask` XORs the D shares of each lane: it unmasks the lanes of the flat vector. |
| `Gadgets.RefreshLaneFold` | interface/utils.py:59-65 | The words `simple_refresh` adds to a lane sum to zero, so the lane's secret is kept. |
| `Gadgets.RefreshLaneZero` | interface/utils.py:59-65 | With zero words, a lane of `simple_refresh` is left as it is. |
| `Keys.RefreshLanesUnmask` | interface/utils.py:59-65 | A refresh of all four lanes keeps the unmasked key. |
| `Keys.RefreshWords` | board_m0/Src/main.c:58-69 | The board's `simple_refresh` puts the drawn words into shares 0 .. D-2 of each lane and their XOR into share D-1. It keeps the unmasked key, and with zero words it changes nothing. |
| `Keys.SimpleRefresh` | interface/utils.py:51-65 | The host's `simple_refresh` keeps `umask` of the key. It reads the next 4·(D-1) tape words one at a time and leaves the tape that many words on. With PRGON off, it returns the key unchanged. |
| `Prng.Seeded` | interface/SpookTopLevel.py:155-158 | A raw seed becomes a core state with the seed in row 0 and zero rows 1-3. |
| `Prng.Start` | interface/utils.py:88-105 | An uninitialised tape starts from the seeded core with index MAX = 16, so its first draw refills. A running tape is taken as it is. |
| `Prng.FillTable` | interface/utils.py:125-130 | `fill_table` applies `shadow` twice. Entries 0..7 are rows 0-1 after the first step and entries 8..15 are rows 0-1 after the second. |
| `Prng.Pull` | interface/utils.py:114-119 | The draw loop returns l words and a running tuple. After at least one word the index lies in 1..16, and after none the tuple is unchanged. |
| `Prng.GetRandomTape` | interface/utils.py:78-123 | `get_random_tape` returns l words. With PRGON off they are all zero, while index, table and core advance exactly as with it on. |
| `Prng.PullConcat` | interface/utils.py:114-119 | Reading l1 words and then l2 more from the returned tuple is reading l1 + l2 words. |
| `Prng.DrawConcat` | interface/utils.py:78-123 | The same holds for `get_random_tape` with an uninitialised or running seed. |
| `Prng.SkipAdd` | interface/utils.py:78-123 | Skipping a words and then b words skips a + b words. |
| `Prng.GetRandomTapeSplit` | interface/utils.py:78-123 | A draw of 1 + n words is the one-word draw a gadget makes, followed by n words from the tuple it returns. |
| `Prng.Draws` | interface/spook_masked.py:152-153 | n successive one-word `get_random_tape(seed_tmp, 1)` calls return n words. That they are one n-word draw is `Prng.DrawsAtOnce`. |
| `Prng.DrawsAtOnce` | interface/spook_masked.py:152-153 | n successive one-word draws read the words of one n-word draw and leave the tape n words on. |
| `Prng.PullRefills` | interface/utils.py:114-119 | Reading l words from index i refills (l + i − 1) / 16 times, that is, twice as many `shadow` steps. The index ends at (l + i − 1) % 16 + 1. |
| `Prng.StepAtPos` | interface/utils.py:114-119 | Reading one word at stream position pos returns stream word pos and moves the tuple to position pos + 1. |
| `Prng.PullAtPos` | interface/utils.py:114-119 | A tuple at stream position pos reads the next l stream words and ends at position pos + l. |
| `Prng.FreshDrawIsStream` | interface/utils.py:78-130 | A tape seeded from a raw seed reads the reference stream of the seeded core word for word. |
| `Prng.FreshTapeFourSteps` | interface/utils.py:113-130 | A fresh tape that reads 32 words has applied `shadow` exactly four times, and its index is back at 16. |
| `Prng.DrawAtStream` | interface/utils.py:113-119 | A tape at stream position pos stays on the stream: it reads stream words pos .. pos + l − 1. |
| `TopLevel.SetSeed` | interface/SpookTopLevel.py:155-158 | `set_data(.., "s")` stores the seed and resets the PRNG state to the seed above three zero rows. Nothing else changes. |
| `TopLevel.SetData` | interface/SpookTopLevel.py:144-164 | Each field takes the data exactly when the name selects it: the seed (and the PRNG state, reset to the seed above zero rows), the nonce, the key, or the first word as `N` or `f`. Every other field is kept, and a key keeps its 4·D words. |
| `TopLevel.NextKey` | interface/SpookTopLevel.py:119-125 | In fixed-key mode the next key is `simple_refresh` of the batch's key on a tape seeded from row 2, and it unmasks to that key. Otherwise it is the first 4·D words of that tape. |
| `TopLevel.PredictedRows` | interface/SpookTopLevel.py:110-128 | Row i of the tables holds the key, seed and nonce of encryption i. |
| `TopLevel.UnrollLoop` | interface/SpookTopLevel.py:106-143 | The loop fills row 0 from the stored state and row i from the state after i shadow calls. The last turn stores the next batch's core, seed, nonce and key, after exactly N shadow calls. |
| `TopLevel.UnrollInputsAsWritten` | interface/SpookTopLevel.py:100-143 | `unroll_inputs(N)` with its own mode test `_f == 1`. |
| `TopLevel.UnrollInputs` | interface/SpookTopLevel.py:115-141 | `unroll_inputs(N)` with the board's mode test `_f != 0`. |
| `TopLevel.BatchesChain` | interface/SpookTopLevel.py:129-141 | After a batch of n1, the next batch predicts the seeds and nonces of positions n1 + i of one long batch. In random-key mode it predicts the same keys; in fixed-key mode, keys with the same unmasked value. |
| `TopLevel.HostAfterChain` | interface/SpookTopLevel.py:129-141 | Two chained batches leave the host where one batch of the combined size does, up to unmasking of a fixed key. |
| `TopLevel.HostAfter` | interface/SpookTopLevel.py:129-141 | The host after a batch keeps a 4·D-word key. That it is the state `unroll_inputs` leaves is stated by `TopLevel.UnrollLoop`; that chained batches end where one combined batch ends, by `TopLevel.HostAfterChain`; that a fixed key still unmasks to the stored key, by `TopLevel.FixedKeysUnmask`. |
| `Protocol.DestCodeOfName` | interface/SpookTopLevel.py:205-222 | The host writes the code of the buffer it names: c→0, ad→1, m→2, npub→3, k→4, s→5, N→6, f→7. |
| `Protocol.DestCode` | interface/SpookTopLevel.py:205-222 | Every name gets a code below 8, the range the board dispatches on. The code of each name the host uses is stated by `Protocol.DestCodeOfName`. |
| `Protocol.UnknownNameIsCiphertext` | interface/SpookTopLevel.py:203-222 | A name outside that list leaves byte 0 at zero, which selects the ciphertext buffer. |
| `Protocol.Header` | interface/SpookTopLevel.py:203-228 | The header is four bytes, and the length the board decodes from it is the transfer's length modulo 65536. |
| `Protocol.HeaderLength` | board_m0/Src/main.c:87 | The decoded length is below 65536, and its low and high bytes are header bytes 2 and 3. |
| `Protocol.FitsBuffer` | board_m0/Src/main.c:31-54 | A transfer the model accepts never writes past the buffer it is sent to: at most `MAX_LEN + CRYPTO_ABYTES` = 272 bytes of ciphertext and 256 of associated data or message, and exactly 16 bytes of nonce or seed, 16·D of key, 4 of `N` or `fixed_key`. |
| `Protocol.LengthBytes` | interface/SpookTopLevel.py:224-226 | The low and high length bytes together give the length modulo 65536. |
| `Protocol.HeaderRoundTrip` | interface/SpookTopLevel.py:195-229 | The board decodes a host header into the buffer the host named, the flag it sent, and the length modulo 65536. Below 64 KiB that is the length itself. |
| `Protocol.Dispatch` | board_m0/Src/main.c:88-118 | Header byte 0 below 8 selects the buffer with that code. Any other value leaves the destination unchanged. |
| `Protocol.CodesDistinct` | board_m0/Src/main.c:88-118 | Distinct buffers have distinct codes and distinct host names. |
| `Firmware.Boot` | board_m0/Src/main.c:184-190 | At boot the header, PRNG state, seed, nonce and both keys are zero, `N = 1` and `fixed_key = 1`, the keys have 4·D words, and the board waits for a header. |
| `Firmware.OnHeader` | board_m0/Src/main.c:86-124 | The header branch stores the header and selects the buffer its byte 0 names. Unknown codes keep the old buffer. The board then waits for data, and nothing else changes. |
| `Firmware.AfterReceipt` | board_m0/Src/main.c:78-84 | After a seed, the PRNG state is the seed above three zero rows. After a key, `initial_key` is the key. Any other transfer changes nothing. |
| `Firmware.Store` | board_m0/Src/main.c:121-122 | The data lands in the selected buffer: `npub`, `seed` or `k` take the words, `N` or `fixed_key` the first word, and a ciphertext of at most 272 bytes, or associated data or a message of at most 256 bytes, changes no modelled field. Header, waiting flag, PRNG state and `initial_key` are untouched. |
| `Firmware.EncryptLoop` | board_m0/Src/main.c:129-156 | The batch loop records one input per turn and changes only the PRNG state, the nonce and the key. |
| `Firmware.EncryptLoopClosed` | board_m0/Src/main.c:129-156 | Encryption i uses row 0 of the state after i shadow calls as its seed. Its nonce is the stored one first, then row 1. Its key is the stored one first, then the key derived from row 2. The board ends after exactly N calls. |
| `Firmware.EncryptBatch` | board_m0/Src/main.c:126-158 | A batch makes N encryptions and leaves `initial_key` equal to the last key. |
| `Firmware.OnData` | board_m0/Src/main.c:126-181 | The data branch encrypts only when header byte 1 is 1 and afterwards waits for a header again. |
| `Firmware.FixedKeyBatchUnmask` | board_m0/Src/main.c:149-157 | In fixed-key mode, every key of a batch and the key handed to the next batch unmask to the batch's starting key. |
| `LockStep.FreshTapeIsBoardRandom` | board_m0/Src/main.c:146-151 | The host's tape seeded from a row reads what the board's generator, seeded from that row, returns. |
| `LockStep.NextKeyMatches` | board_m0/Src/main.c:146-155 | With the board's mode test, the host derives the board's next key. |
| `Firmware.BoardNextKey` | board_m0/Src/main.c:149-155 | The next key has 4·D words; its two ensures follow the branch on `fixed_key`. What the key means is stated by `Firmware.FixedKeyBatchUnmask` (in fixed-key mode it unmasks to the batch's starting key) and `LockStep.NextKeyMatches` (the host with the board's mode test derives the same key). |
| `LockStep.PredictionIsInput` | interface/SpookTopLevel.py:115-128 | Encryption i of the board's batch uses exactly the key, seed and nonce the host predicts for row i. |
| `LockStep.BatchInputs` | board_m0/Src/main.c:129-156 | Every input the batch loop records is the matching row of the host's tables. |
| `LockStep.BatchEnd` | interface/SpookTopLevel.py:129-141 | After the batch, the state `unroll_inputs` leaves on the host mirrors the board. |
| `LockStep.BatchLockStep` | board_m0/Src/main.c:129-157 | One batch in lock-step: the board's inputs are the rows of the host's tables, and the host still mirrors the board afterwards. |
| `LockStep.Announce` | board_m0/Src/main.c:86-120 | After the header of a transfer to buffer s, the board has selected s, kept the flag, and waits for data. Key and `initial_key` are untouched. |
| `LockStep.StoreMirrors` | board_m0/Src/main.c:78-84 | Storing the data and running the receipt hooks does on the board what `set_data` does on the host. |
| `LockStep.ReceiptMirrors` | board_m0/Src/main.c:78-124 | A header followed by its data leaves the board mirrored by the host's `set_data`. |
| `LockStep.TransferPlain` | board_m0/Src/main.c:161-181 | A transfer without the encryption flag runs no encryption, and the host still mirrors the board. |
| `LockStep.TransferBatch` | board_m0/Src/main.c:126-160 | A transfer with the encryption flag runs a batch whose inputs are the host's tables. The batch ends where `unroll_inputs` leaves the host. |
| `LockStep.Transfer` | interface/SpookTopLevel.py:144-167 | A whole session step (`set_data`, then the corrected `unroll_inputs`, `TopLevel.UnrollInputs`, when it encrypts) returns exactly the inputs the board used and keeps host and board in lock-step. |
| `LockStep.AsWrittenLockStep` | interface/SpookTopLevel.py:115-141 | For the flags 0 and 1, the test as written (`_f == 1`) agrees with the board's, and a batch of the host as written is in lock-step with the board: its tables are the board's inputs, and it mirrors the board afterwards. |
| `LockStep.Deliver` | board_m0/Src/main.c:78-124 | A transfer with flag 0, header then data: the selected buffer takes the words, a seed resets the PRNG state, a key also becomes `initial_key`, and nothing else changes. |
| `LockStep.OpenSession` | capture/capture.py:121-127 | Sending `N`, `f`, `s`, `npub`, `k`, and `m` and `ad` of at most 256 bytes each, with flag 0, from any board waiting for a header (the boot state included), leaves the host mirroring the board, which holds the values sent. |
| `LockStep.BoardKeepsKey` | board_m0/Src/main.c:149-155 | With flag 2 and D = 1, the board refreshes its zero key with no drawn word, so its second encryption uses the zero key. |
| `LockStep.HostPredictsOnes` | interface/SpookTopLevel.py:119-125 | With flag 2, the host as written takes random-key mode and predicts four fresh words. They are all ones under `OnesAbove`, a `shadow` that maps every state to ones in row 0 and zeros below. |
| `LockStep.AsWrittenKeyForFlag` | interface/SpookTopLevel.py:119-125 | For every `shadow` and every flag of 2 or more, the host as written predicts 4·D fresh generator words as the key of encryption i ≥ 1, while the board refreshes the batch's key. The two unmask alike exactly when the fresh words unmask to the batch's key. |
| `LockStep.AsWrittenDesyncs` | interface/SpookTopLevel.py:119-125 | For flag 2, the host as written predicts a key for encryption 1 that does not even unmask to the board's key. |

## Left out

- `Protocol.Fits`: the board never compares the length in a header with the size of the buffer it selects (board_m0/Src/main.c:87-124). A longer ciphertext, associated-data or message transfer writes past its buffer into the globals declared after it. The model excludes such transfers, so no member says what the board does then. `CRYPTO_ABYTES` is defined in a header that is not part of this model. The model takes it as 16 bytes, the Spook tag length.
- `Firmware.Boot`: `dest` is a null pointer until the first header (board_m0/Src/main.c:39); the model starts it at `Ciphertext`. The two differ only when the first header carries a code of 8 or more, which the board then writes through the null pointer. `send_data_uart` never sends such a code (`Protocol.DestCode`).
- `shadow` is a parameter of the model and is never given a body. `interface/spook.py` is not part of this model.
- `D` and `PRGON` come from `interface/parameters.py`, which is not part of this model. They are fields of `Words.Params`.
- The board's generator (`init_rng`, `fill_table`, `get_random`) lives in a header that is not part of this model. It is modelled as the host's reference stream, `Prng.StreamWords` from the seeded core.
- The board has no PRGON switch. Every lock-step lemma therefore assumes the host's tape is on. With PRGON off, the host predicts zero words where the board draws random ones.
- `crypto_aead_encrypt` and `crypto_aead_decrypt` are foreign calls and are not modelled. The model does not cover the contents of the ciphertext, associated-data and message buffers, or their length fields.
- UART and serial I/O, the HAL, GPIO and clock setup, the `"Python"` target branch of `set_data`, tqdm and the capture scripts are hardware plumbing. They are not modelled.
- numpy's vectorisation over Nc executions (and over the columns of a 2-D seed) is not modelled. The model covers one execution.
- `Keys.Mask`: the words `np.random.randint` draws are the parameter `rs`, because they come from numpy's global random state.
- `TopLevel.UnrollLoop`, `TopLevel.UnrollInputs` and `TopLevel.UnrollInputsAsWritten`: these require N ≥ 1. With N = 0 the source fails on its first assignment to row 0 of an empty table.
- `LockStep.Transfer`: this requires at least one word of data and fewer than 64 KiB. A zero-length header makes the board read the next header as data, and a longer transfer has its length cut modulo 65536. Neither case is modelled.
- `TopLevel.SetData`: the state models only the nonce, seed, key, batch size and fixed-key flag. The ciphertext, associated data and message that `set_data` also stores are not modelled. An unknown name, which `set_data` reports with a print, is not representable.
- `Protocol.Header`: a flag or length byte beyond 255 wraps modulo 256, as an older numpy `uint8` store does. A newer numpy raises an error there instead.
- `Firmware.OnData`: the decryption branch (flag 2) calls only `crypto_aead_decrypt`, so it leaves the modelled state as the other non-encrypting branches do.
- The probabilistic side-channel properties of the gadgets (probing security, SNI) are not functional properties. The model states value preservation and exact randomness counts only.

## Findings

| source | as written | input that shows it | evidently intended | confidence | as-written member | corrected member |
|---|---|---|---|---|---|---|
| interface/SpookTopLevel.py:120 | `unroll_inputs` takes fixed-key mode only when `_f == 1`, and lines 132-137 do the same. The board (board_m0/Src/main.c:149) takes it whenever `fixed_key != 0`. | A fixed-key flag of 2, D = 1, and a `shadow` that maps every state to ones in row 0 and zeros below (`OnesAbove`). The board's second encryption uses the zero key it was given. The host predicts a key that unmasks to all ones. | Fixed-key mode whenever `_f != 0`, as on the board. | not executed | `LockStep.AsWrittenDesyncs` (on `TopLevel.UnrollInputsAsWritten`), in general `LockStep.AsWrittenKeyForFlag` | `TopLevel.UnrollInputs`, proved in lock-step by `LockStep.BatchLockStep` and `LockStep.Transfer` |
