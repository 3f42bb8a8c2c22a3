# Aerospike Python client helpers and native conversions, modelled in Dafny

This project models two parts of the Aerospike Python client.

The first part is the operation-descriptor builders in `aerospike_helpers.operations`: every `map_*` and `list_*` function.
Each one returns a dictionary that the native layer reads to build a list or map operation.
The model states, key by key, what each dictionary holds:
- the opcode;
- the arguments that are always stored;
- the optional arguments, each under its own inclusion rule (`is not None`, truthiness, or `True` when truthy);
- no other key.

Lemmas compare layouts where builders that look alike disagree.

The second part is a set of conversions in the native glue (`src/main/conversions.c`):
- key validation (`pyobject_to_key`) and its inverse (`key_to_pyobject`);
- role lists and privileges (`pyobject_to_strArray`, `pyobject_to_as_privileges`) and their Python forms;
- the pair-list and bin-list results (`as_list_of_map_to_py_tuple_list`, `operate_bins_to_pyobject`);
- record metadata (`metadata_to_pyobject`, `check_for_meta`);
- the two bin-name checks (`bin_strict_type_checking` and the one in `pyobject_to_record`);
- nested-context decoding (`get_cdt_ctx`, `requires_int`);
- the exception tuple (`error_to_pyobject`).

The loops of the C code are Dafny methods with loop invariants, proved against functions that specify them:
- the role and privilege loops write into arrays;
- `check_for_meta` updates the ttl and generation fields of an `Operations` object.

Round-trip lemmas state that what one direction writes, the other reads back.

The native code is modelled as built for Python 2, where the compatibility macros map `PyString_*` and `PyBytes_*` to the byte string type `str`, and `PyInt_*` and `PyLong_*` both accept `int`.
The header that defines these macros is not part of this model.
Under this build:
- `bytes` is `str`, so the `PyBytes_Check` branch of `pyobject_to_key` (after the `PyString_Check` branch) is never reached and is not modelled;
- a `unicode` object is a separate type, refused wherever only `PyString_Check` is asked (the key's namespace, `bin_strict_type_checking`).

Values come from Python objects. They are modelled by one datatype, `Py.PyObj`, with these constructors:
- `Str`: what `PyString_Check` (and `PyBytes_Check`) accepts;
- `Unicode`: what `PyUnicode_Check` accepts;
- `Int` (what `PyInt_Check` and `PyLong_Check` accept), `Bool`, `ByteArray`, `List`, `Tuple`, `Dict`;
- `Object`: any other object, given by its attributes.

C strings are byte sequences read up to their first NUL.

The native layer calls other conversions: `val_to_pyobject` and `pyobject_to_val`. They are function parameters of the generic members (`conv`, `toVal`, `fromVal`).

Files:
- `py.dfy`: Python values, C strings, and dictionary and attribute lookup.
- `errors.dfy`: status codes, results, the exception tuple.
- `descriptors.dfy`: descriptor values and the declarative field layout (`Has`).
- `map_operations.dfy`, `list_operations.dfy`: the builders and their layout lemmas.
- `builder_contrasts.dfy`: list against map layouts.
- `keys.dfy`: `pyobject_to_key` and `key_to_pyobject`.
- `admin.dfy`: role arrays and privileges.
- `records.dfy`: pair lists, operate bins, metadata and bin names.
- `ctx.dfy`: context paths.

## Model

| member | source | states |
|---|---|---|
| MapOperations.MapSetPolicy | aerospike_helpers/operations/map_operations.py:27-49 | Sets the map policy: the descriptor holds `op` = OpMapSetPolicy and `bin` (the bin_name argument), `map_policy` (the policy argument), `ctx` only when ctx is not None; no other key |
| MapOperations.MapPut | aerospike_helpers/operations/map_operations.py:51-81 | Puts one item: the descriptor holds `op` = OpMapPut and `bin` (the bin_name argument), `key` (the key argument), `val` (the value argument), `map_policy` only when map_policy is not None, `ctx` only when ctx is not None; no other key |
| MapOperations.MapPutItems | aerospike_helpers/operations/map_operations.py:84-111 | Puts several items: the descriptor holds `op` = OpMapPutItems and `bin` (the bin_name argument), `val` (the item_dict argument), `map_policy` only when map_policy is not None, `ctx` only when ctx is not None; no other key |
| MapOperations.MapIncrement | aerospike_helpers/operations/map_operations.py:113-142 | Increments the value under a key: the descriptor holds `op` = OpMapIncrement and `bin` (the bin_name argument), `key` (the key argument), `val` (the amount argument), `map_policy` only when map_policy is not None, `ctx` only when ctx is not None; no other key |
| MapOperations.MapDecrement | aerospike_helpers/operations/map_operations.py:145-174 | Decrements the value under a key: the descriptor holds `op` = OpMapDecrement and `bin` (the bin_name argument), `key` (the key argument), `val` (the amount argument), `map_policy` only when map_policy is not None, `ctx` only when ctx is not None; no other key |
| MapOperations.MapSize | aerospike_helpers/operations/map_operations.py:176-196 | Returns the map's size: the descriptor holds `op` = OpMapSize and `bin` (the bin_name argument), `ctx` only when ctx is not None; no other key |
| MapOperations.MapClear | aerospike_helpers/operations/map_operations.py:199-219 | Empties the map: the descriptor holds `op` = OpMapClear and `bin` (the bin_name argument), `ctx` only when ctx is not None; no other key |
| MapOperations.MapRemoveByKey | aerospike_helpers/operations/map_operations.py:222-247 | Removes the item with a key: the descriptor holds `op` = OpMapRemoveByKey and `bin` (the bin_name argument), `key` (the key argument), `return_type` (the return_type argument), `ctx` only when ctx is not None; no other key |
| MapOperations.MapRemoveByKeyList | aerospike_helpers/operations/map_operations.py:250-278 | Removes the items with the listed keys: the descriptor holds `op` = OpMapRemoveByKeyList and `bin` (the bin_name argument), `val` (the key_list argument), `return_type` (the return_type argument), `inverted` (the inverted argument), `ctx` only when ctx is not None; no other key |
| MapOperations.MapRemoveByKeyRange | aerospike_helpers/operations/map_operations.py:281-313 | Removes the items in a key range: the descriptor holds `op` = OpMapRemoveByKeyRange and `bin` (the bin_name argument), `key` (the key_range_start argument), `val` (the key_range_end argument), `return_type` (the return_type argument), `inverted` (the inverted argument), `ctx` only when ctx is not None; no other key |
| MapOperations.MapRemoveByValue | aerospike_helpers/operations/map_operations.py:316-344 | Removes the items with a value: the descriptor holds `op` = OpMapRemoveByValue and `bin` (the bin_name argument), `val` (the value argument), `return_type` (the return_type argument), `inverted` (the inverted argument), `ctx` only when ctx is not None; no other key |
| MapOperations.MapRemoveByValueList | aerospike_helpers/operations/map_operations.py:347-375 | Removes the items with the listed values: the descriptor holds `op` = OpMapRemoveByValueList and `bin` (the bin_name argument), `val` (the value_list argument), `return_type` (the return_type argument), `inverted` (the inverted argument), `ctx` only when ctx is not None; no other key |
| MapOperations.MapRemoveByValueRange | aerospike_helpers/operations/map_operations.py:378-409 | Removes the items in a value range: the descriptor holds `op` = OpMapRemoveByValueRange and `bin` (the bin_name argument), `val` (the value_start argument), `range` (the value_end argument), `return_type` (the return_type argument), `inverted` (the inverted argument), `ctx` only when ctx is not None; no other key |
| MapOperations.MapRemoveByIndex | aerospike_helpers/operations/map_operations.py:412-437 | Removes the item at an index: the descriptor holds `op` = OpMapRemoveByIndex and `bin` (the bin_name argument), `index` (the index argument), `return_type` (the return_type argument), `ctx` only when ctx is not None; no other key |
| MapOperations.MapRemoveByIndexRange | aerospike_helpers/operations/map_operations.py:440-470 | Removes the items in an index range: the descriptor holds `op` = OpMapRemoveByIndexRange and `bin` (the bin_name argument), `index` (the index_start argument), `val` (the remove_amt argument), `return_type` (the return_type argument), `inverted` (the inverted argument), `ctx` only when ctx is not None; no other key |
| MapOperations.MapRemoveByRank | aerospike_helpers/operations/map_operations.py:473-498 | Removes the item with a rank: the descriptor holds `op` = OpMapRemoveByRank and `bin` (the bin_name argument), `index` (the rank argument), `return_type` (the return_type argument), `ctx` only when ctx is not None; no other key |
| MapOperations.MapRemoveByRankRange | aerospike_helpers/operations/map_operations.py:501-531 | Removes the items in a rank range: the descriptor holds `op` = OpMapRemoveByRankRange and `bin` (the bin_name argument), `index` (the rank_start argument), `val` (the remove_amt argument), `return_type` (the return_type argument), `inverted` (the inverted argument), `ctx` only when ctx is not None; no other key |
| MapOperations.MapGetByKey | aerospike_helpers/operations/map_operations.py:534-559 | Reads the item with a key: the descriptor holds `op` = OpMapGetByKey and `bin` (the bin_name argument), `key` (the key argument), `return_type` (the return_type argument), `ctx` only when ctx is truthy; no other key |
| MapOperations.MapGetByKeyRange | aerospike_helpers/operations/map_operations.py:562-594 | Reads the items in a key range: the descriptor holds `op` = OpMapGetByKeyRange and `bin` (the bin_name argument), `key` (the key_range_start argument), `range` (the key_range_end argument), `return_type` (the return_type argument), `inverted` (the inverted argument), `ctx` only when ctx is truthy; no other key |
| MapOperations.MapGetByKeyList | aerospike_helpers/operations/map_operations.py:597-625 | Reads the items with the listed keys: the descriptor holds `op` = OpMapGetByKeyList and `bin` (the bin_name argument), `val` (the key_list argument), `return_type` (the return_type argument), `inverted` (the inverted argument), `ctx` only when ctx is truthy; no other key |
| MapOperations.MapGetByValue | aerospike_helpers/operations/map_operations.py:627-655 | Reads the items with a value: the descriptor holds `op` = OpMapGetByValue and `bin` (the bin_name argument), `val` (the value argument), `return_type` (the return_type argument), `inverted` (the inverted argument), `ctx` only when ctx is truthy; no other key |
| MapOperations.MapGetByValueRange | aerospike_helpers/operations/map_operations.py:658-689 | Reads the items in a value range: the descriptor holds `op` = OpMapGetByValueRange and `bin` (the bin_name argument), `val` (the value_start argument), `range` (the value_end argument), `return_type` (the return_type argument), `inverted` (the inverted argument), `ctx` only when ctx is truthy; no other key |
| MapOperations.MapGetByValueList | aerospike_helpers/operations/map_operations.py:692-720 | Reads the items with the listed values: the descriptor holds `op` = OpMapGetByValueList and `bin` (the bin_name argument), `val` (the key_list argument), `return_type` (the return_type argument), `inverted` (the inverted argument), `ctx` only when ctx is truthy; no other key |
| MapOperations.MapGetByIndex | aerospike_helpers/operations/map_operations.py:723-748 | Reads the item at an index: the descriptor holds `op` = OpMapGetByIndex and `bin` (the bin_name argument), `index` (the index argument), `return_type` (the return_type argument), `ctx` only when ctx is truthy; no other key |
| MapOperations.MapGetByIndexRange | aerospike_helpers/operations/map_operations.py:751-781 | Reads the items in an index range: the descriptor holds `op` = OpMapGetByIndexRange and `bin` (the bin_name argument), `index` (the index_start argument), `val` (the get_amt argument), `return_type` (the return_type argument), `inverted` (the inverted argument), `ctx` only when ctx is truthy; no other key |
| MapOperations.MapGetByRank | aerospike_helpers/operations/map_operations.py:784-809 | Reads the item with a rank: the descriptor holds `op` = OpMapGetByRank and `bin` (the bin_name argument), `index` (the rank argument), `return_type` (the return_type argument), `ctx` only when ctx is truthy; no other key |
| MapOperations.MapGetByRankRange | aerospike_helpers/operations/map_operations.py:812-842 | Reads the items in a rank range: the descriptor holds `op` = OpMapGetByRankRange and `bin` (the bin_name argument), `index` (the rank_start argument), `val` (the get_amt argument), `return_type` (the return_type argument), `inverted` (the inverted argument), `ctx` only when ctx is truthy; no other key |
| MapOperations.MapRemoveByValueRankRangeRelative | aerospike_helpers/operations/map_operations.py:844-900 | Removes items by rank relative to a value: the descriptor holds `op` = OpMapRemoveByValueRankRangeRel and `bin` (the bin_name argument), `val` (the value argument), `rank` (the offset argument), `return_type` (the return_type argument), `count` only when count is not None, `inverted` = True only when inverted is truthy, `ctx` only when ctx is truthy; no other key |
| MapOperations.MapGetByValueRankRangeRelative | aerospike_helpers/operations/map_operations.py:903-957 | Reads items by rank relative to a value: the descriptor holds `op` = OpMapGetByValueRankRangeRel and `bin` (the bin_name argument), `val` (the value argument), `rank` (the offset argument), `return_type` (the return_type argument), `count` only when count is not None, `inverted` = True only when inverted is truthy, `ctx` only when ctx is truthy; no other key |
| MapOperations.MapRemoveByKeyIndexRangeRelative | aerospike_helpers/operations/map_operations.py:960-1017 | Removes items by index relative to a key: the descriptor holds `op` = OpMapRemoveByKeyIndexRangeRel and `bin` (the bin_name argument), `key` (the key argument), `index` (the offset argument), `return_type` (the return_type argument), `count` only when count is not None, `inverted` = True only when inverted is truthy, `ctx` only when ctx is truthy; no other key |
| MapOperations.MapGetByKeyIndexRangeRelative | aerospike_helpers/operations/map_operations.py:1020-1077 | Reads items by index relative to a key: the descriptor holds `op` = OpMapGetByKeyIndexRangeRel and `bin` (the bin_name argument), `key` (the value argument), `index` (the offset argument), `return_type` (the return_type argument), `count` only when count is not None, `inverted` = True only when inverted is truthy, `ctx` only when ctx is truthy; no other key |
| MapOperations.SizeAndClearBare | aerospike_helpers/operations/map_operations.py:176-219 | Without a context, map_size and map_clear hold exactly their opcode and the bin name |
| MapOperations.EmptyCtxKeptByWritesDroppedByGets | aerospike_helpers/operations/map_operations.py:51-81 | An empty context list is kept by map_put and map_remove_by_key (which test `is not None`) and dropped by map_get_by_key (which tests truthiness) |
| MapOperations.RankKeys | aerospike_helpers/operations/map_operations.py:473-809 | map_remove_by_rank and map_get_by_rank store the rank under `index`, never under `rank` |
| MapOperations.RelativeOffsetKeys | aerospike_helpers/operations/map_operations.py:903-1077 | The value-relative builders store the offset under `rank`, and the key-relative builders under `index`; never both |
| MapOperations.RangeEndKeys | aerospike_helpers/operations/map_operations.py:281-689 | A key range ends under `val` when removing and under `range` when reading; a value range keeps its start under `val` and its end under `range` |
| ListOperations.ListAppend | aerospike_helpers/operations/list_operations.py:31-58 | Appends one item: the descriptor holds `op` = OpListAppend and `bin` (the bin_name argument), `val` (the value argument), `list_policy` only when policy is truthy, `ctx` only when ctx is truthy; no other key |
| ListOperations.ListAppendItems | aerospike_helpers/operations/list_operations.py:61-88 | Appends several items: the descriptor holds `op` = OpListAppendItems and `bin` (the bin_name argument), `val` (the values argument), `list_policy` only when policy is truthy, `ctx` only when ctx is truthy; no other key |
| ListOperations.ListInsert | aerospike_helpers/operations/list_operations.py:90-120 | Inserts one item at an index: the descriptor holds `op` = OpListInsert and `bin` (the bin_name argument), `index` (the index argument), `val` (the value argument), `list_policy` only when policy is truthy, `ctx` only when ctx is truthy; no other key |
| ListOperations.ListInsertItems | aerospike_helpers/operations/list_operations.py:122-152 | Inserts several items at an index: the descriptor holds `op` = OpListInsertItems and `bin` (the bin_name argument), `index` (the index argument), `val` (the values argument), `list_policy` only when policy is truthy, `ctx` only when ctx is truthy; no other key |
| ListOperations.ListIncrement | aerospike_helpers/operations/list_operations.py:154-183 | Increments the item at an index: the descriptor holds `op` = OpListIncrement and `bin` (the bin_name argument), `index` (the index argument), `val` (the value argument), `list_policy` only when policy is truthy, `ctx` only when ctx is truthy; no other key |
| ListOperations.ListPop | aerospike_helpers/operations/list_operations.py:186-209 | Removes and returns the item at an index: the descriptor holds `op` = OpListPop and `bin` (the bin_name argument), `index` (the index argument), `ctx` only when ctx is truthy; no other key |
| ListOperations.ListPopRange | aerospike_helpers/operations/list_operations.py:212-238 | Removes and returns a range of items: the descriptor holds `op` = OpListPopRange and `bin` (the bin_name argument), `index` (the index argument), `val` (the count argument), `ctx` only when ctx is truthy; no other key |
| ListOperations.ListRemove | aerospike_helpers/operations/list_operations.py:241-263 | Removes the item at an index: the descriptor holds `op` = OpListRemove and `bin` (the bin_name argument), `index` (the index argument), `ctx` only when ctx is truthy; no other key |
| ListOperations.ListRemoveRange | aerospike_helpers/operations/list_operations.py:266-291 | Removes a range of items: the descriptor holds `op` = OpListRemoveRange and `bin` (the bin_name argument), `index` (the index argument), `val` (the count argument), `ctx` only when ctx is truthy; no other key |
| ListOperations.ListClear | aerospike_helpers/operations/list_operations.py:294-315 | Empties the list: the descriptor holds `op` = OpListClear and `bin` (the bin_name argument), `ctx` only when ctx is truthy; no other key |
| ListOperations.ListSet | aerospike_helpers/operations/list_operations.py:318-346 | Replaces the item at an index: the descriptor holds `op` = OpListSet and `bin` (the bin_name argument), `index` (the index argument), `val` (the value argument), `list_policy` only when policy is truthy, `ctx` only when ctx is truthy; no other key |
| ListOperations.ListGet | aerospike_helpers/operations/list_operations.py:349-372 | Reads the item at an index: the descriptor holds `op` = OpListGet and `bin` (the bin_name argument), `index` (the index argument), `ctx` only when ctx is truthy; no other key |
| ListOperations.ListGetRange | aerospike_helpers/operations/list_operations.py:375-400 | Reads a range of items: the descriptor holds `op` = OpListGetRange and `bin` (the bin_name argument), `index` (the index argument), `val` (the count argument), `ctx` only when ctx is truthy; no other key |
| ListOperations.ListTrim | aerospike_helpers/operations/list_operations.py:403-428 | Keeps only a range of items: the descriptor holds `op` = OpListTrim and `bin` (the bin_name argument), `index` (the index argument), `val` (the count argument), `ctx` only when ctx is truthy; no other key |
| ListOperations.ListSize | aerospike_helpers/operations/list_operations.py:431-452 | Returns the list's size: the descriptor holds `op` = OpListSize and `bin` (the bin_name argument), `ctx` only when ctx is truthy; no other key |
| ListOperations.ListGetByIndex | aerospike_helpers/operations/list_operations.py:457-484 | Reads the item at an index: the descriptor holds `op` = OpListGetByIndex and `bin` (the bin_name argument), `return_type` (the return_type argument), `index` (the index argument), `ctx` only when ctx is truthy; no other key |
| ListOperations.ListGetByIndexRange | aerospike_helpers/operations/list_operations.py:487-522 | Reads the items in an index range: the descriptor holds `op` = OpListGetByIndexRange and `bin` (the bin_name argument), `return_type` (the return_type argument), `index` (the index argument), `inverted` (the inverted argument), `count` only when count is not None, `ctx` only when ctx is truthy; no other key |
| ListOperations.ListGetByRank | aerospike_helpers/operations/list_operations.py:525-552 | Reads the item with a rank: the descriptor holds `op` = OpListGetByRank and `bin` (the bin_name argument), `return_type` (the return_type argument), `rank` (the rank argument), `ctx` only when ctx is truthy; no other key |
| ListOperations.ListGetByRankRange | aerospike_helpers/operations/list_operations.py:555-590 | Reads the items in a rank range: the descriptor holds `op` = OpListGetByRankRange and `bin` (the bin_name argument), `return_type` (the return_type argument), `rank` (the rank argument), `inverted` (the inverted argument), `count` only when count is not None, `ctx` only when ctx is truthy; no other key |
| ListOperations.ListGetByValue | aerospike_helpers/operations/list_operations.py:593-622 | Reads the items with a value: the descriptor holds `op` = OpListGetByValue and `bin` (the bin_name argument), `return_type` (the return_type argument), `val` (the value argument), `inverted` (the inverted argument), `ctx` only when ctx is truthy; no other key |
| ListOperations.ListGetByValueList | aerospike_helpers/operations/list_operations.py:625-655 | Reads the items with the listed values: the descriptor holds `op` = OpListGetByValueList and `bin` (the bin_name argument), `return_type` (the return_type argument), `value_list` (the value_list argument), `inverted` (the inverted argument), `ctx` only when ctx is truthy; no other key |
| ListOperations.ListGetByValueRange | aerospike_helpers/operations/list_operations.py:658-694 | Reads the items in a value range: the descriptor holds `op` = OpListGetByValueRange and `bin` (the bin_name argument), `return_type` (the return_type argument), `inverted` (the inverted argument), `value_begin` only when value_begin is not None, `value_end` only when value_end is not None, `ctx` only when ctx is truthy; no other key |
| ListOperations.ListRemoveByIndex | aerospike_helpers/operations/list_operations.py:697-724 | Removes the item at an index: the descriptor holds `op` = OpListRemoveByIndex and `bin` (the bin_name argument), `return_type` (the return_type argument), `index` (the index argument), `ctx` only when ctx is truthy; no other key |
| ListOperations.ListRemoveByIndexRange | aerospike_helpers/operations/list_operations.py:727-762 | Removes the items in an index range: the descriptor holds `op` = OpListRemoveByIndexRange and `bin` (the bin_name argument), `return_type` (the return_type argument), `index` (the index argument), `inverted` (the inverted argument), `count` only when count is not None, `ctx` only when ctx is truthy; no other key |
| ListOperations.ListRemoveByRank | aerospike_helpers/operations/list_operations.py:765-792 | Removes the item with a rank: the descriptor holds `op` = OpListRemoveByRank and `bin` (the bin_name argument), `return_type` (the return_type argument), `rank` (the rank argument), `ctx` only when ctx is truthy; no other key |
| ListOperations.ListRemoveByRankRange | aerospike_helpers/operations/list_operations.py:795-830 | Removes the items in a rank range: the descriptor holds `op` = OpListRemoveByRankRange and `bin` (the bin_name argument), `return_type` (the return_type argument), `rank` (the rank argument), `inverted` (the inverted argument), `count` only when count is not None, `ctx` only when ctx is truthy; no other key |
| ListOperations.ListRemoveByValue | aerospike_helpers/operations/list_operations.py:833-863 | Removes the items with a value: the descriptor holds `op` = OpListRemoveByValue and `bin` (the bin_name argument), `return_type` (the return_type argument), `val` (the value argument), `inverted` (the inverted argument), `ctx` only when ctx is truthy; no other key |
| ListOperations.ListRemoveByValueList | aerospike_helpers/operations/list_operations.py:866-897 | Removes the items with the listed values: the descriptor holds `op` = OpListRemoveByValueList and `bin` (the bin_name argument), `return_type` (the return_type argument), `value_list` (the value_list argument), `inverted` (the inverted argument), `ctx` only when ctx is truthy; no other key |
| ListOperations.ListRemoveByValueRange | aerospike_helpers/operations/list_operations.py:900-937 | Removes the items in a value range: the descriptor holds `op` = OpListRemoveByValueRange and `bin` (the bin_name argument), `return_type` (the return_type argument), `inverted` (the inverted argument), `value_begin` only when value_begin is not None, `value_end` only when value_end is not None, `ctx` only when ctx is truthy; no other key |
| ListOperations.ListSetOrder | aerospike_helpers/operations/list_operations.py:940-963 | Sets the list's order: the descriptor holds `op` = OpListSetOrder and `bin` (the bin_name argument), `list_order` (the list_order argument), `ctx` only when ctx is truthy; no other key |
| ListOperations.ListSort | aerospike_helpers/operations/list_operations.py:966-989 | Sorts the list: the descriptor holds `op` = OpListSort and `bin` (the bin_name argument), `sort_flags` (the sort flags, default `LIST_SORT_DEFAULT`), `ctx` only when ctx is truthy; no other key |
| ListOperations.ListGetByValueRankRangeRelative | aerospike_helpers/operations/list_operations.py:992-1048 | Reads items by rank relative to a value: the descriptor holds `op` = OpListGetByValueRankRangeRel and `bin` (the bin_name argument), `val` (the value argument), `rank` (the offset argument), `return_type` (the return_type argument), `inverted` (the inverted argument), `count` only when count is not None, `ctx` only when ctx is truthy; no other key |
| ListOperations.ListRemoveByValueRankRangeRelative | aerospike_helpers/operations/list_operations.py:1051-1105 | Removes items by rank relative to a value: the descriptor holds `op` = OpListRemoveByValueRankRangeRel and `bin` (the bin_name argument), `val` (the value argument), `rank` (the offset argument), `return_type` (the return_type argument), `inverted` (the inverted argument), `count` only when count is not None, `ctx` only when ctx is truthy; no other key |
| ListOperations.EmptyPolicyDropped | aerospike_helpers/operations/list_operations.py:31-346 | An empty policy dictionary is dropped like None by list_append, list_insert and list_set |
| ListOperations.RangeCountUnderVal | aerospike_helpers/operations/list_operations.py:212-428 | pop_range, remove_range, get_range and trim store the index under `index` and the count under `val`, never under `count` |
| ListOperations.ValueAndValueListKeys | aerospike_helpers/operations/list_operations.py:593-897 | One value goes under `val`, a list of values under `value_list`, for both get and remove |
| ListOperations.SortDefaultFlagsSent | aerospike_helpers/operations/list_operations.py:966-989 | With the default flags and no context, list_sort holds exactly its opcode, the bin and `sort_flags` |
| BuilderContrasts.RelativeInvertedDiffers | aerospike_helpers/operations/map_operations.py:844-957 | The map relative builders store True for a truthy `inverted` and omit a falsy one; the list relative builders store the argument as given |
| BuilderContrasts.EmptyCtxMapWriteKeepsListWriteDrops | aerospike_helpers/operations/map_operations.py:84-111 | An empty context list stays in map_put_items (`is not None`) and is dropped from list_insert (`if ctx:`, list_operations.py lines 90-120) |
| Keys.KeyPartsOf | src/main/conversions.c:856-883 | A tuple of 3 or 4 items, or a dictionary, gives the four components (a dictionary gives exactly its lookups of ns, set, key and digest, each absent entry as none); another tuple size and any other type are parameter errors with the source's messages |
| Keys.NamespaceOf | src/main/conversions.c:886-894 | The namespace is accepted exactly when present and a `str`, as its C string; otherwise a parameter error |
| Keys.SetOf | src/main/conversions.c:896-908 | An absent or None set is the empty set; a `str` or `unicode` set is accepted as its C string (UTF-8 for unicode); any other type is "set must be a string" |
| Keys.KeyValueOf | src/main/conversions.c:912-961 | Accepted exactly for unicode, str, an int within 64 bits, or a bytearray whose size cast to uint32 is non-zero; a str key keeps its bytes and a unicode key its UTF-8 encoding, both cut at the first NUL; an int key keeps its value, a byte key the first uint32-size bytes; failures are parameter errors |
| Keys.DigestOf | src/main/conversions.c:963-976 | Accepted exactly for a bytearray whose uint32 size is 20, keeping its first 20 bytes; otherwise a parameter error, whose message prints the uint32 size as a signed int |
| Keys.PyobjectToKey | src/main/conversions.c:843-991 | Every failure is a parameter error, and an accepted key carries exactly one of a user key and a digest |
| Keys.StrOrNone | src/main/conversions.c:1383-1389 | An empty C string becomes None and only then |
| Keys.KeyToPy | src/main/conversions.c:1368-1464 | A NULL key is the client error "key is null"; otherwise a 4-tuple whose namespace and set are None exactly when empty and whose digest is None exactly when unset |
| Keys.KeyRoundTrip | src/main/conversions.c:843-991 | pyobject_to_key reads back every canonical key that key_to_pyobject writes |
| Keys.StringKeyTupleComesBack | src/main/conversions.c:843-991 | A (ns, set, key) triple of NUL-free strings goes to an as_key with a string key, which comes back as the 4-tuple with a None digest |
| Keys.KeyBeatsDigest | src/main/conversions.c:912-977 | A user key other than None makes the digest irrelevant, whatever it is |
| Keys.DigestOnlyKeys | src/main/conversions.c:963-980 | With a None key: no digest is "either key or digest is required", and otherwise the key is accepted exactly for a 20-byte bytearray digest, which it then carries |
| Keys.EmptyByteArrayKeyRefused | src/main/conversions.c:945-950 | An empty bytearray key is "Byte array size cannot be 0" |
| Keys.DictKeyMatchesTuple | src/main/conversions.c:873-879 | A dictionary with entries ns, set and key converts exactly as the tuple of those three values |
| Keys.UnicodeNamespaceRefused | src/main/conversions.c:886-891 | A unicode namespace is refused even where a unicode set is accepted |
| Admin.StrItemError | src/main/conversions.c:298-328 | An item can be copied exactly when it is a str or unicode whose C string is shorter than the slot; otherwise a client error |
| Admin.FirstBadItem | src/main/conversions.c:295-330 | The index where the copy loop stops: every earlier item can be copied and the item there cannot |
| Admin.FirstBadItemAt | src/main/conversions.c:295-330 | Any index with that property is the stopping index |
| Admin.PyobjectToStrArray | src/main/conversions.c:282-333 | The status is the one the stopping item decides; a non-list changes nothing; the slots before the stop hold the items' C strings and the others are unchanged |
| Admin.StrArrayToPy | src/main/conversions.c:110-127 | One `str` per slot, in order, holding the slot's C string |
| Admin.StrArrayRoundTrip | src/main/conversions.c:110-333 | Role names that fit their slots convert to Python and back unchanged, with status OK |
| Admin.PrivilegeOf | src/main/conversions.c:162-185 | The code is a 32-bit value; a missing ns or set is stored as the empty string |
| Admin.FirstMissingCode | src/main/conversions.c:157-188 | The index where the privileges loop stops: every earlier item has a code and the item there lacks one |
| Admin.FirstMissingCodeAt | src/main/conversions.c:157-188 | Any index with that property is the stopping index |
| Admin.ReachedFitBeforeMissingCode | src/main/conversions.c:157-185 | The dictionaries the loop copies fields from are exactly those before the first dictionary without a code |
| Admin.PyobjectToPrivileges | src/main/conversions.c:155-190 | For lists whose reached dictionaries fit their fields: OK exactly when no dictionary lacks a code, else the missing-code parameter error; each dictionary before the stop fills its slot with its privilege; the other slots are unchanged |
| Admin.MissingCodeHidesLaterEntries | src/main/conversions.c:157-168 | A dictionary without a code at the front stops the scan at index 0, whatever follows |
| Admin.PrivilegeToPy | src/main/conversions.c:253-280 | A dictionary of three entries: ns and set hold the privilege's NUL-terminated namespace and set, code holds its code |
| Admin.PrivilegeRoundTrip | src/main/conversions.c:155-280 | A privilege whose code and strings fit is read back unchanged from its dictionary |
| Admin.PrivilegeDefaults | src/main/conversions.c:171-185 | A dictionary holding only a code gives an empty namespace and set |
| Admin.NonIntCodeIsMinusOne | src/main/conversions.c:164-165 | A code that is not an int is stored as -1 |
| Errors.ErrorToPy | src/main/conversions.c:1616-1649 | Always a 5-tuple; the file is None exactly when unset and the line exactly when not positive |
| Errors.ErrorRoundTrip | src/main/conversions.c:1616-1649 | An error whose strings hold no NUL and whose line is not negative is recovered from its tuple |
| Records.PairTuples | src/main/conversions.c:1140-1173 | An even-length list gives one tuple per pair |
| Records.TupleListOf | src/main/conversions.c:1126-1181 | An odd-length list is a client error; a success is a list of half as many tuples |
| Records.ListOfMapToTupleList | src/main/conversions.c:1126-1181 | The loop computes the tuple list of the whole flat list, or its first error |
| Records.PairTuplesInOrder | src/main/conversions.c:1140-1173 | When every element converts, tuple j is (list[2j], list[2j+1]) converted |
| Records.TupleListOfFlattened | src/main/conversions.c:1126-1181 | A flattened list of pairs comes back as one tuple per pair, in order |
| Records.NullElementFails | src/main/conversions.c:1140-1173 | A NULL element anywhere makes the conversion fail |
| Records.NullElementFailsPairs | src/main/conversions.c:1144-1147 | The same for the pair walk over an even-length list |
| Records.BinPairs | src/main/conversions.c:1561-1582 | One tuple per bin when every value converts |
| Records.OperateBinsOf | src/main/conversions.c:1546-1591 | A NULL record is "record is null"; a success lists one tuple per bin |
| Records.OperateBinsToPy | src/main/conversions.c:1546-1591 | The loop computes the bin tuples of the whole record, or the first error |
| Records.BinPairsInOrder | src/main/conversions.c:1561-1582 | Entry i pairs the name and value of bin i: order kept, nothing merged |
| Records.BinPairsFirstFailure | src/main/conversions.c:1561-1568 | The first bin whose value does not convert decides the error |
| Records.RepeatedBinNamesKept | src/main/conversions.c:1546-1591 | Two bins with the same name give two entries, in their order |
| Records.MetadataToPy | src/main/conversions.c:1593-1614 | A NULL record fails; otherwise a dictionary whose ttl and gen entries are the record's |
| Records.MetaOutcome | src/main/conversions.c:1768-1809 | The ttl and generation stay in their C widths; every failure is a parameter error; no metadata or None changes nothing; a non-dictionary is refused and changes nothing |
| Records.Operations.constructor | src/main/conversions.c:1768-1809 | New operations start with ttl and generation 0 |
| Records.Operations.CheckForMeta | src/main/conversions.c:1768-1809 | The status and the new ttl and generation are those MetaOutcome gives for the old ones |
| Records.MetadataRoundTrip | src/main/conversions.c:1593-1809 | Metadata read from a record and handed back sets the same ttl and generation |
| Records.TtlCheckedFirst | src/main/conversions.c:1776-1787 | A ttl that is not an int is refused before the generation is looked at, and nothing is stored |
| Records.TtlKeptWhenGenRefused | src/main/conversions.c:1776-1803 | An accepted ttl is stored even when the generation is then refused |
| Records.MetaStoredTruncated | src/main/conversions.c:1776-1803 | Any ttl and generation within 64 bits are accepted and stored cast to uint32 and uint16 |
| Records.MetaTruncated | src/main/conversions.c:1776-1803 | For instance, ttl -1 is stored as 2^32 - 1, and generation 2^16 + 3 as 3 |
| Records.AbsentTtlKept | src/main/conversions.c:1772-1804 | A dictionary without `ttl` leaves the stored ttl unchanged and still sets the generation |
| Records.BinStrictTypeChecking | src/main/conversions.c:1723-1753 | No bin object leaves the name unset; a str or bytearray is accepted as its C string, except that with strict types on a name over 14 bytes is ERR_BIN_NAME; any other type is a parameter error |
| Records.RecordBinName | src/main/conversions.c:535-555 | A str or unicode key is accepted as its C string, except that with strict types on a name over 14 bytes is ERR_BIN_NAME; any other type is a client error |
| Records.StrictNamesFitBuffer | src/main/conversions.c:535-555 | A name accepted under strict types fits the 15-byte bin-name buffer with its NUL |
| Records.BinNameChecksDisagree | src/main/conversions.c:535-1753 | A unicode name passes the record check but not bin_strict_type_checking, a bytearray name the other way round, and another type is a parameter error for one and a client error for the other |
| Ctx.StepOf | src/main/conversions.c:1979-2063 | Failures are parameter errors; a step's kind is the object's id read as an unsigned long; requires_int holds exactly for the integer kinds; their integer fits 32 bits |
| Ctx.RequiresIntKinds | src/main/conversions.c:2055-2063 | requires_int holds exactly for the list-index, list-rank, map-index and map-rank kinds, and for no id outside the seven step kinds |
| Ctx.StepsOf | src/main/conversions.c:1978-2045 | One step per context object; failures are parameter errors |
| Ctx.CtxStepsOf | src/main/conversions.c:1965-2050 | No ctx entry is no context; an entry that is not a list is "Failed to convert ctx" |
| Ctx.GetCdtCtx | src/main/conversions.c:1962-2053 | ctx_in_use is raised exactly when a ctx entry exists; the status is OK when `CtxStepsOf` succeeds and its error otherwise; on success the steps are those of `CtxStepsOf` |
| Ctx.StepRoundTrip | src/main/conversions.c:1979-2041 | A step whose integer fits 32 bits, or whose value converts back, is read back from its context object unchanged |
| Ctx.StepsRoundTrip | src/main/conversions.c:1965-2050 | A whole context path is read back from its list of context objects |
| Ctx.IntStepsWrap | src/main/conversions.c:2000-2018 | The integer of a step wraps to 32 bits: list index 2^32 + 1 is 1, map rank 2^31 is -2^31 |
| Ctx.UnknownKindRefused | src/main/conversions.c:2023-2040 | An unknown kind is refused only after its value is converted |
| Ctx.BadIdRefused | src/main/conversions.c:1981-1997 | A missing or negative id is "Failed to convert ctx" |
| Ctx.EmptyCtxReachesGlueOnlyForMapWrites | src/main/conversions.c:1965-1976 | An empty path given to a list write never reaches get_cdt_ctx; given to a map write, it is an empty context |


## Left out

- The CPython C-API mechanics are not modelled: reference counting, allocation, raising Python exceptions, and cleanup on error paths.
- Allocation failures are not modelled: "Failed to allocate memory for list/tuple" and "Unable to build bin entry".
- Unicode encoding failures cannot arise: a Dafny `string` holds only valid characters, so "Unable to convert unicode string" and "Unicode bin name not encoded in utf-8." have no inputs.
- The fallbacks in `key_to_pyobject` that decode a string key as UTF-8 or as bytes when `PyString_FromString` fails are left out. Under the byte-string reading of `str` used here, that call does not fail.
- A NULL key object passed to `pyobject_to_key` ("key is null") is left out. Only real Python objects are inputs.
- The final "key is invalid" of `pyobject_to_key` is left out. It is reached only when `as_key_init` refuses a namespace or set longer than its fixed field, and the C client's `as_key` layout is not part of this model.
- Admin.PyobjectToPrivileges: when the `"code"` entry is missing, the source allocates the slot and then leaves it uninitialised; the model leaves that slot unchanged.
- Admin.PyobjectToPrivileges requires `FieldsFit` only of the dictionaries the loop reaches, the ones before the first dictionary without a code. `FieldsFit` means that `ns` and `set`, when given, are a `str` or an ASCII-only `unicode` whose string fits its 32- or 64-byte field. The source passes `PyString_AsString` of them to `strcpy` with no check: a longer string overruns the field, and any other object makes `PyString_AsString` return NULL, which `strcpy` then reads.
- Records.OperateBinsOf: the "Null entry in operate ordered conversion" branch is left out, because the value converter is total in the model (a success always carries an object).
- The rest of `pyobject_to_record` (value conversion of each bin, serializers, and the metadata and TTL handling beyond `check_for_meta`) is not modelled. Only its bin-name check is.
- Python's `__int__` and `__index__` protocols are not modelled: only `int` and `bool` objects are integers here, so a float ttl or code takes the "not an int" path.
- Python default arguments are explicit parameters: a caller passes `PyNone` where the Python caller leaves an argument out.
- Opcodes and other constants of the native module (`aerospike.OP_MAP_PUT`, `LIST_SORT_DEFAULT`, ...) are distinct symbolic constants, not their numeric values.
- Some values come from the C client's headers, which are not part of this model:
  - the context kind ids (`AS_CDT_CTX_*`);
  - `AS_BIN_NAME_MAX_LEN` (14; the source's error message states 14);
  - `AS_DIGEST_VALUE_SIZE` (20);
  - the status codes (ERR_CLIENT -1, ERR_PARAM -2, ERR_BIN_NAME 21);
  - the privilege field sizes (32 and 64 bytes);
  - the `as_cdt_ctx` and `as_operations` internals beyond the steps and the ttl and generation.
- Ctx.GetCdtCtx: on an error the model returns no steps. The steps the source has already added, and the value it has already converted when the kind is unknown, stay in the context unreleased.
- A stale pending Python error seen by `PyErr_Occurred` in `get_cdt_ctx` is not modelled. Each lookup fails only for its own reason.
- The size arguments the C functions take (`privileges_size`, the array of `max_len` slots) are the lengths of the Dafny sequences and arrays; `max_len` is a parameter.
- Each builder's inclusion rule follows its own code, even where builders of the same family differ:
  - The map write and non-relative remove builders test `ctx is not None`. The map get builders and all four map relative builders test `if ctx:`.
  - The non-relative map and list builders always store `inverted`, even at its default `False`. The map relative builders store `True` only when it is truthy.
