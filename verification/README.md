# Asset transaction builder and wallet client status — a Dafny model

This project models two parts of the Beam wallet.

1. **`AssetTxBuilder`** is the builder that takes one (sub)transaction through the steps of an asset Issue, Transfer or Burn:
   - it checks the asset id and the command;
   - it mints asset coins and the asset change coin, tagged with the asset id;
   - it computes the party's public excess, which counts only base-asset coin values and base-asset output commitments;
   - under Issue with a positive total, it creates an emission kernel;
   - it signs with an offset that, under Issue, includes the asset ownership key;
   - it assembles the transaction with the emission kernel ahead of the main kernel.
2. **A slice of `WalletClient`**:
   - the change calculation;
   - the node-connection status (`m_isConnected`, `m_walletError`) and what `getNetworkStatus` reports from it;
   - replacement of the node address;
   - the reconnection-attempt counter of the client's `NodeNetwork`.

Files:

- `wallet_types.dfy` (module `WalletTypes`):
  - `uint64_t` amounts, and the wrapping 64-bit fold that `std::accumulate(…, 0ULL)` performs;
  - conversion to a signed 64-bit value;
  - the `Option`/`Result` wrappers used for error paths.
- `ecc.dfy` (module `Ecc`): the curve group, modelled symbolically.
  - A point is written by its coefficients on the two generators G and H, so the commitment `blind·G + value·H` is `Point(blind, value)` and group addition is coordinate-wise.
  - A serialised point either encodes a group element or carries raw X/Y coordinates; importing the latter fails.
- `asset_tx_builder.dfy` (module `AssetTx`):
  - the builder as a class whose fields are the builder's members;
  - the transaction it draws parameters from and stores coins to (`BaseTransaction`);
  - the specification functions its methods are proved against;
  - lemmas about those functions.
- `wallet_client.dfy` (module `WalletClientModel`):
  - the classes `WalletClient` and `NodeNetwork`;
  - notifications to the client's observers, appended in order to a `notices` log;
  - the attempt counter as a pure step function, with lemmas about repeated attempts.

Key derivation, switch-commitment blinding, kernel signing (`TxKernel::Sign`) and `getWalletError` are uninterpreted: they are function-valued fields fixed when the object is created. Signatures and kernel hashes are uninterpreted constructors over their arguments.

Some values come from collaborators outside this model and are parameters of the operations that receive them:
- the result of the base builder step (base coin selection, base coins and base change coins with the coins it stores, base kernel);
- the key index the wallet database assigns to a stored coin;
- the result of resolving a host name;
- the coins the database selects.

## Model

| member | source | states |
|---|---|---|
| WalletTypes.AccumulateIsSumMod | wallet/asset_tx_builder.cpp:41-44 | the 64-bit `accumulate` fold equals the true sum of the list reduced modulo 2^64 |
| WalletTypes.AccumulateExact | wallet/asset_tx_builder.cpp:41-44 | without overflow the fold is exactly the sum |
| WalletTypes.SumPositiveIff | wallet/asset_tx_builder.cpp:320 | a list of amounts sums to a positive value exactly when one entry is positive |
| WalletTypes.ToSigned64 | wallet/asset_tx_builder.cpp:322 | the total stored as the signed emission keeps its value below 2^63 and becomes negative exactly from 2^63 on |
| AssetTx.AssetTxBuilder.constructor | wallet/asset_tx_builder.cpp:27-30 | the builder starts with the given fee, amounts, asset id and command, zero asset change, zero issued blinding factor, and no kernels, coins, inputs or outputs |
| AssetTx.AssetTxBuilder.Create | wallet/asset_tx_builder.cpp:27-38 | construction fails with `FailedToGetParameter` exactly when the mandatory asset command parameter is missing; otherwise the builder has that command and the settled amount list |
| AssetTx.InitialAmountList | wallet/asset_tx_builder.cpp:31-34 | a non-empty amount argument is kept; an empty one is replaced by the stored parameter when present, otherwise stays empty |
| AssetTx.AssetTxBuilder.AssetAmount | wallet/asset_tx_builder.cpp:41-44 | the asset amount is the sum of the amount list modulo 2^64, and exactly the sum when that is below 2^64 |
| AssetTx.ValidateAssetRequest | wallet/asset_tx_builder.cpp:55-85 | the request passes exactly when the asset id parameter is present and non-zero and the command is Issue, Transfer or Burn; a missing id fails with `FailedToGetParameter`, anything else with `InvalidTransaction` |
| AssetTx.AssetTxBuilder.SelectInputs | wallet/asset_tx_builder.cpp:51-87 | a base-selection failure is passed on with nothing changed; otherwise the base selection is taken and the outcome is the asset validation above |
| AssetTx.AssetTxBuilder.GenerateNewCoin | wallet/asset_tx_builder.cpp:101-123 | exactly one coin is appended to the output coins, with the given value, the builder's asset id, and a change key exactly when requested; the database receives that coin with the transaction id as creator; the whole list is persisted; the issued blinding factor is set only under Issue and only while it is zero |
| AssetTx.AssetTxBuilder.GenerateNewCoinList | wallet/asset_tx_builder.cpp:125-132 | the output coins become the old ones, then the base coins, then one asset coin per amount in list order; the database receives the base step's coins, then exactly those asset coins; the blinding factor follows the same set-once rule |
| AssetTx.AssetCoinsAt | wallet/asset_tx_builder.cpp:128-131 | the k-th generated asset coin carries the k-th amount, the asset id, and a change key exactly when the list is generated as change |
| AssetTx.StoredCoinsAt | wallet/asset_tx_builder.cpp:104-110 | every coin stored in the database records the creating transaction, and has the id and asset of the coin appended at the same position |
| AssetTx.BlindKept | wallet/asset_tx_builder.cpp:118-122 | outside Issue, or once non-zero, the issued blinding factor is never reassigned however many coins follow |
| AssetTx.BlindFromFirstCoin | wallet/asset_tx_builder.cpp:118-122 | under Issue, starting from zero, the first coin's switch blinding (when non-zero) is the issued blinding factor after any number of coins |
| AssetTx.AssetTxBuilder.AddChange | wallet/asset_tx_builder.cpp:89-99 | after the base change coins (and the coins the base step stores), an asset change coin is added, stored and persisted exactly when the asset change is non-zero, and then the issued blinding factor follows the set-once rule of `GenerateNewCoin`; otherwise the asset layer changes nothing else |
| AssetTx.AccumulateBaseValues | wallet/asset_tx_builder.cpp:199-217 | the loop totals the values of the base-asset coins only, wrapping modulo 2^64 |
| AssetTx.AddBaseOutputCommitments | wallet/asset_tx_builder.cpp:219-234 | the loop adds the commitment of every base-asset output that imports, skipping asset outputs and failed imports |
| AssetTx.AddInputCommitments | wallet/asset_tx_builder.cpp:236-243 | the loop adds the commitment of every input that imports, skipping failed imports |
| AssetTx.AssetTxBuilder.GetPublicExcess | wallet/asset_tx_builder.cpp:194-266 | the method's running sums equal the public excess: the base excess, and under Issue the base excess minus G·(issued blinding factor) minus G·sk; under Issue a missing key index fails |
| AssetTx.AssetTxBuilder.PublicExcess | wallet/asset_tx_builder.cpp:247-263 | the public excess exists exactly when the command is not Issue or the asset key index is present; a failure is `FailedToGetParameter` |
| AssetTx.ExcessFormula | wallet/asset_tx_builder.cpp:196 | without overflow, the excess's G part is Σ inputs − Σ base outputs − offset and its H part is Σ inputs − Σ base outputs − (Σ base input values − Σ base output values) |
| AssetTx.ExcessIgnoresAssetOutputs | wallet/asset_tx_builder.cpp:199-234 | inserting an asset coin among the output coins and an asset output among the outputs, at any positions, leaves the excess unchanged |
| AssetTx.InputSumOpens | wallet/asset_tx_builder.cpp:236-243 | when each input is the commitment of a base coin, the input sum is (Σ blinds)·G + (Σ values)·H |
| AssetTx.OutputSumOpens | wallet/asset_tx_builder.cpp:219-234 | when each base output is the commitment of its coin, the base output sum is (Σ base blinds)·G + (Σ base values)·H |
| AssetTx.ExcessCarriesNoValue | wallet/asset_tx_builder.cpp:196 | when inputs and base outputs open to their coins and nothing overflows, the values cancel: the excess is G·(Σ input blinds − Σ base output blinds − offset) |
| AssetTx.AssetTxBuilder.SecretKey | wallet/asset_tx_builder.cpp:306-314 | the asset key exists exactly when the key index parameter does, and is the master derivation of that index as a regular key |
| AssetTx.UnsignedEmissionKernel | wallet/asset_tx_builder.cpp:321-324 | before signing, the emission kernel has the asset id as commitment X, zero as Y, is unsigned, and carries the total as signed emission |
| AssetTx.EmitsAssetIff | wallet/asset_tx_builder.cpp:320 | without overflow, an emission kernel is due exactly for Issue with at least one positive amount |
| AssetTx.AssetTxBuilder.CreateKernel | wallet/asset_tx_builder.cpp:316-335 | the main kernel is the base one; an emission kernel is created exactly for Issue with a positive total, and is the tagged unsigned kernel passed through `TxKernel::Sign` with the asset key; without the key it remains unsigned and the step fails |
| AssetTx.AssetTxBuilder.SignWith | wallet/asset_tx_builder.cpp:340-355 | the kernel commitment becomes own excess plus peer excess, the message is the kernel hash over it, and the signature uses own nonce plus peer nonce and the offset (plus the asset key under Issue) |
| AssetTx.AssetTxBuilder.SignPartial | wallet/asset_tx_builder.cpp:337-358 | signs with the public excess when it exists; when it does not, fails with nothing changed |
| AssetTx.Assemble | wallet/asset_tx_builder.cpp:283-298 | the kernel list is the emission kernel (if any) then the main kernel; the offset is own plus peer offset; inputs and outputs are local then peer |
| AssetTx.AssetTxBuilder.CreateTransaction | wallet/asset_tx_builder.cpp:268-304 | the transaction is the assembly of the builder's parts, which are moved out |
| WalletClientModel.WalletClient.constructor | wallet/wallet_client.cpp:166-173 | the client starts disconnected, with no recorded error and the given node address |
| WalletClientModel.SumSelected | wallet/wallet_client.cpp:478-483 | the loop totals the selected coin values, wrapping modulo 2^64, and gives the exact sum without overflow |
| WalletClientModel.ChangeFor | wallet/wallet_client.cpp:484-491 | the change never exceeds the total; it plus the amount is the total exactly when the total covers the amount, and it is zero otherwise |
| WalletClientModel.WalletClient.CalcChange | wallet/wallet_client.cpp:476-492 | reports exactly one change notification, the change for the selected total |
| WalletClientModel.WalletClient.ErrorOf | wallet/wallet_client.cpp:723-736 | an I/O failure or a processing exception maps to its wallet error; any other reason has none |
| WalletClientModel.WalletClient.NodeConnectionFailed | wallet/wallet_client.cpp:719-739 | the client is always disconnected afterwards; a mapped error is recorded and reported once; otherwise the error and the notifications are unchanged |
| WalletClientModel.WalletClient.NodeConnectedStatusChanged | wallet/wallet_client.cpp:741-745 | the connection flag becomes the argument and that value is reported |
| WalletClientModel.StatusNotice | wallet/wallet_client.cpp:647-656 | the status reported is the stored error exactly when one is recorded and the client is disconnected, otherwise the connection flag |
| WalletClientModel.WalletClient.GetNetworkStatus | wallet/wallet_client.cpp:647-656 | reports exactly one status notification and changes nothing else |
| WalletClientModel.WalletClient.SetNodeAddress | wallet/wallet_client.cpp:615-640 | a resolved address is kept and the node list becomes exactly that node; an unresolved one reports `HostResolvedError` and changes neither the address nor the node list; neither branch touches the node network's attempt counter or timer |
| WalletClientModel.WalletClient.AttachNodeNetwork | wallet/wallet_client.cpp:297-298 | the client keeps the node network it started |
| WalletClientModel.NodeNetwork.constructor | wallet/wallet_client.cpp:231-236 | a node network starts with no nodes, zero attempts and its own copy of the address |
| WalletClientModel.NodeNetwork.TryToConnect | wallet/wallet_client.cpp:238-273 | with nodes configured nothing changes; otherwise the counter advances only below the maximum, a host-resolution failure is passed to the client exactly at the maximum, the timer is armed, and the counter never passes the maximum |
| WalletClientModel.NodeNetwork.OnReconnectTimer | wallet/wallet_client.cpp:261-272 | a resolved address is appended to the node list and the client is left as it was; otherwise another attempt is made, which with no nodes advances the counter and, at the maximum, passes the host-resolution failure to the client |
| WalletClientModel.NodeNetwork.OnNodeConnected | wallet/wallet_client.cpp:276-279 | the new status reaches the client |
| WalletClientModel.NodeNetwork.OnConnectionFailed | wallet/wallet_client.cpp:281-284 | the failure reaches the client with the same effect as `nodeConnectionFailed` |
| WalletClientModel.AttemptsAfterIs | wallet/wallet_client.cpp:249-252 | after k attempts from zero the counter is k while below 5 and 5 from then on |
| WalletClientModel.FailureReportedFromAttempt | wallet/wallet_client.cpp:253-258 | an attempt reports a connection failure exactly when at least 5 attempts came before it |

## Left out

- `BaseTxBuilder` is not part of this model. Base coin selection, base change, base outputs and the base kernel enter as parameters of the asset steps that call them.
- `GenerateOffset`, `CreateOutputs`, `CreateInputs`, `FinalizeOutputs`, `GetPeerInputsAndOutputs` and the asset coin accessors are left out. They only forward to the base builder or return a member.
- `GetAssetInputs` and `GetAssetOutputs` are left out. Each loads the stored `AssetInputs` or `AssetOutputs` parameter into the matching member and returns whether it was present; no modelled step reads those members.
- `FinalizeAssetOutputs` and `FinalizeAssetInputs` are left out. Apart from commented-out code, `FinalizeAssetOutputs` only returns `true` and `FinalizeAssetInputs` does nothing.
- Scalars are unbounded integers: reduction modulo the group order is not modelled. Points are symbolic (their G and H coefficients), so an X/Y pair that is not an encoded point simply fails to import.
- AssetTx.AssetTxBuilder.GenerateNewCoinList and AssetTx.AssetTxBuilder.AddChange: whatever the base step writes to the `OutputCoins` parameter is not modelled, so their `params` clauses describe the asset layer only. When at least one asset coin is made, the asset layer's own final write stores the whole output list, so the final parameter is as stated if the base step writes only `OutputCoins`.
- Signing (`TxKernel::Sign`, `SignSync`), kernel hashing, key derivation and `SwitchCommitment::Create` are uninterpreted.
- AssetTx.AssetTxBuilder.CreateKernel: the body of `TxKernel::Sign` is not part of this model. So the commitment tag and the emission are stated for the kernel before signing, and nothing is promised about what signing keeps.
- `Transaction::Normalize` (sorting of kernels, inputs and outputs) is left out. `CreateTransaction` is modelled up to the point before it.
- `StoreKernelID` at the end of `SignPartial` is left out: it is a database write whose body is not part of this model.
- AssetTx.AssetTxBuilder.CreateTransaction: moved-from members are modelled as emptied. In the source, the moved-from peer vectors keep their length, with null elements.
- Logging throughout is left out.
- Exceptions (`TransactionFailedException`, a missing mandatory parameter) are modelled as failure results. Whether a failure is fatal is not modelled.
- Timers, `Connect`, `Disconnect`, host-name resolution and the reactor are left out; a resolution result is a parameter.
- `WalletClient::start`, `stopReactor`, the destructor, `WalletModelBridge` and the database and wallet wrappers of `WalletClient` are left out. They are thread, reactor and I/O plumbing.
- `getWalletError` is uninterpreted. The I/O error the attempt counter passes is the host-resolution one; which `ErrorType` that maps to is not fixed by the code modelled here.
- ui/viewmodel/start_view.h is left out: it holds UI declarations with no logic.

## Notes on the source

The model follows the code as written. Points a reader may not expect:

- `SelectInputs` runs the base selection before the asset checks, so a base failure is reported first.
- It checks the stored `AssetID` parameter, not the builder's own asset id.
- Burn never creates an emission kernel: the code creates one only for Issue with a positive wrapped total.
- A total of 2^63 or more reaches the kernel as a negative emission.
- Nothing in the modelled code assigns a non-zero asset change, so `AddChange` adds only the base change unless the asset change is set elsewhere.
- `setNodeAddress` changes the client's address and the node list. It does not change the node network's own copy of the address, which the reconnection timer resolves.
- Input commitments are summed whatever their asset, while input values are counted only for base-asset coins; the model keeps that asymmetry.
