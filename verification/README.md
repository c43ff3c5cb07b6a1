# Verified model of the request builders, response decoder and configuration of a VK bots client

The library is a Java client for the VK bots HTTP API: one class per remote
method, each collecting named parameters, plus decoders for the JSON answers
and one shared configuration object. This project models the four places
where that glue has behaviour of its own, and proves what they promise.

- `messages.send` (`MessagesSendMethod`, file `messages_send.dfy`): the class
  `MessagesSend` with its fifteen nullable fields, fluent setters and getters;
  the attachment reference string `type + ownerId + "_" + mediaId [+ "_" +
  accessKey]` (`AttachmentRef`) with a reader for it (`ParseAttachmentRef`)
  proved to be its inverse; the `attach` step that creates the list on first
  use and appends; and the fixed, ordered key/value stream (`KeyVals`),
  including its two quirks: `userId` is passed to `keyVal` twice (as `user_id`
  and as the first `user_ids`), and `chatId` is stored but never passed.
- `groups.getMembers` decoding (`GroupsGetMemberResponse`,
  `groups_get_member.dfy`): a JSON datatype and the decoder that reads
  `response.count` as it is and decodes `response.items` as integer ids when
  the array is empty or its first element is a JSON primitive, and as member
  objects otherwise. Its partner is `Serialize`; the round trip holds for every
  body except an empty item list, which comes back as an empty id list. Every
  exception the code can raise on a malformed envelope is a `DecodeError`,
  checked in the order the code meets them.
- The shared configuration (`BotsConfig`, `vk_bots_config.dfy`): the class
  `VkBotsConfig` whose twenty getters install a default on first read
  (API version "5.131"; the bot-method table loaded from
  "/vk/bot_methods.properties" through a lazily created factory) and whose
  setters overwrite one field each. Collaborators are opaque `Component`
  objects that carry only their kind, so object identity is modelled: a `new
  X()` default is a fresh object, while a constructor-reference default
  (`X::new`) is promised only to be of the right kind. `ConfigHolder` plays the
  class initialisation that creates the single instance that `getInstance`
  returns.
- `messages.markAsAnsweredConversation` (`MarkAsAnsweredMethod`,
  `mark_as_answered.dfy`): the parameter list as a sequence of (key, value)
  pairs, the fluent setters that append to it, and the boolean flag added as
  1 or 0 for either value of the flag.

`java_lang.dfy` (`JavaLang`) holds the Java semantics these need: `Option` for
nullable references, `Int32`/`Int64`, `Long.intValue()` truncation, and the
decimal text string concatenation writes for an `Integer` (the word "null"
for a null reference), with its parser and round-trip lemma.

Java `int`/`Integer` values are the subset type `Int32`; lists the code
mutates are `seq` fields that the methods reassign.

## Model

| member | source | states |
|---|---|---|
| `JavaLang.LongIntValue` | src/main/java/api/longpoll/bots/methods/messages/MessagesSend.java:44 | `Long.intValue()` keeps the low 32 bits: the result is an int congruent to the long modulo 2^32, and equal to it when it already fits |
| `JavaLang.IntegerToString` | src/main/java/api/longpoll/bots/methods/messages/MessagesSend.java:156 | the text an `Integer` contributes to string concatenation is non-empty and never contains '_' (decimal digits, a leading '-', or "null") |
| `JavaLang.IntegerToStringRoundTrip` | src/main/java/api/longpoll/bots/methods/messages/MessagesSend.java:156 | that text determines the Integer: reading it back gives the same value, null included |
| `MessagesSendMethod.AttachmentRef` | src/main/java/api/longpoll/bots/methods/messages/MessagesSend.java:155-157 | `attachment(type, owner, id, key)` is type, owner, '_', id, then '_' + key exactly when key is non-null: reading the string back yields the owner id, the media id and the key (present or null) unchanged |
| `MessagesSendMethod.AttachmentRefInjective` | src/main/java/api/longpoll/bots/methods/messages/MessagesSend.java:155-157 | two references of one type are equal only when owner id, media id and access key are all equal |
| `MessagesSendMethod.KeyVals` | src/main/java/api/longpoll/bots/methods/messages/MessagesSend.java:136-152 | the stream has exactly the keys user_id, random_id, peer_id, domain, user_ids, user_ids, message, lat, long, attachment, reply_to, forward_messages, sticker_id, dont_parse_links, disable_mentions in that order; only the last two pass the extra `true`; none is chat_id; each entry carries its field: userId under both user_id and the first user_ids, userIds under the second user_ids, latitude under lat, longitude under long, attachments under attachment, forwardMessages under forward_messages, and the rest under their own names |
| `MessagesSendMethod.UserIdSentTwice` | src/main/java/api/longpoll/bots/methods/messages/MessagesSend.java:137-141 | userId reaches the stream exactly twice: changing only userId changes the user_id entry and the first user_ids entry and no other |
| `MessagesSendMethod.KeyValsDetermineAllButChatId` | src/main/java/api/longpoll/bots/methods/messages/MessagesSend.java:136-152 | two builders produce the same stream if and only if they agree on every field except chatId: every other field is emitted and chatId never is |
| `MessagesSendMethod.DefaultRandomId` | src/main/java/api/longpoll/bots/methods/messages/MessagesSend.java:44 | the default random id is the current time in milliseconds truncated to its low 32 bits |
| `MessagesSendMethod.MessagesSend.constructor` | src/main/java/api/longpoll/bots/methods/messages/MessagesSend.java:39-113 | a new builder has every field null except randomId, which holds the truncated clock |
| `MessagesSendMethod.MessagesSend.GetKeyValStream` | src/main/java/api/longpoll/bots/methods/messages/MessagesSend.java:135-153 | returns the key/value stream of the builder's current fields (see KeyVals) |
| `MessagesSendMethod.MessagesSend.Attach` | src/main/java/api/longpoll/bots/methods/messages/MessagesSend.java:159-165 | a null attachment list becomes the one-element list of the new reference; an existing list gets the reference appended at the end with earlier entries kept in order; no other field changes; returns the same object |
| `MessagesSendMethod.MessagesSend.AttachPhoto` | src/main/java/api/longpoll/bots/methods/messages/MessagesSend.java:167-169 | appends the reference of type "photo" built from the photo's owner id, id and access key |
| `MessagesSendMethod.MessagesSend.AttachDoc` | src/main/java/api/longpoll/bots/methods/messages/MessagesSend.java:191-193 | appends the reference of type "doc" built from the document's owner id, id and access key |
| `MessagesSendMethod.MessagesSend.GetUserId` | src/main/java/api/longpoll/bots/methods/messages/MessagesSend.java:214-216 | returns the current `userId` and changes nothing |
| `MessagesSendMethod.MessagesSend.SetUserId` | src/main/java/api/longpoll/bots/methods/messages/MessagesSend.java:218-221 | `userId` becomes the argument, every other field is unchanged, and the same object is returned |
| `MessagesSendMethod.MessagesSend.GetRandomId` | src/main/java/api/longpoll/bots/methods/messages/MessagesSend.java:223-225 | returns the current `randomId` and changes nothing |
| `MessagesSendMethod.MessagesSend.SetRandomId` | src/main/java/api/longpoll/bots/methods/messages/MessagesSend.java:227-230 | `randomId` becomes the argument, every other field is unchanged, and the same object is returned |
| `MessagesSendMethod.MessagesSend.GetPeerId` | src/main/java/api/longpoll/bots/methods/messages/MessagesSend.java:232-234 | returns the current `peerId` and changes nothing |
| `MessagesSendMethod.MessagesSend.SetPeerId` | src/main/java/api/longpoll/bots/methods/messages/MessagesSend.java:236-239 | `peerId` becomes the argument, every other field is unchanged, and the same object is returned |
| `MessagesSendMethod.MessagesSend.GetDomain` | src/main/java/api/longpoll/bots/methods/messages/MessagesSend.java:241-243 | returns the current `domain` and changes nothing |
| `MessagesSendMethod.MessagesSend.SetDomain` | src/main/java/api/longpoll/bots/methods/messages/MessagesSend.java:245-248 | `domain` becomes the argument, every other field is unchanged, and the same object is returned |
| `MessagesSendMethod.MessagesSend.GetChatId` | src/main/java/api/longpoll/bots/methods/messages/MessagesSend.java:250-252 | returns the current `chatId` and changes nothing |
| `MessagesSendMethod.MessagesSend.SetChatId` | src/main/java/api/longpoll/bots/methods/messages/MessagesSend.java:254-257 | `chatId` becomes the argument, every other field is unchanged, and the same object is returned |
| `MessagesSendMethod.MessagesSend.GetUserIds` | src/main/java/api/longpoll/bots/methods/messages/MessagesSend.java:259-261 | returns the current `userIds` and changes nothing |
| `MessagesSendMethod.MessagesSend.SetUserIds` | src/main/java/api/longpoll/bots/methods/messages/MessagesSend.java:263-266 | `userIds` becomes the argument, every other field is unchanged, and the same object is returned |
| `MessagesSendMethod.MessagesSend.GetMessage` | src/main/java/api/longpoll/bots/methods/messages/MessagesSend.java:268-270 | returns the current `message` and changes nothing |
| `MessagesSendMethod.MessagesSend.SetMessage` | src/main/java/api/longpoll/bots/methods/messages/MessagesSend.java:272-275 | `message` becomes the argument, every other field is unchanged, and the same object is returned |
| `MessagesSendMethod.MessagesSend.GetLatitude` | src/main/java/api/longpoll/bots/methods/messages/MessagesSend.java:277-279 | returns the current `latitude` and changes nothing |
| `MessagesSendMethod.MessagesSend.SetLatitude` | src/main/java/api/longpoll/bots/methods/messages/MessagesSend.java:281-284 | `latitude` becomes the argument, every other field is unchanged, and the same object is returned |
| `MessagesSendMethod.MessagesSend.GetLongitude` | src/main/java/api/longpoll/bots/methods/messages/MessagesSend.java:286-288 | returns the current `longitude` and changes nothing |
| `MessagesSendMethod.MessagesSend.SetLongitude` | src/main/java/api/longpoll/bots/methods/messages/MessagesSend.java:290-293 | `longitude` becomes the argument, every other field is unchanged, and the same object is returned |
| `MessagesSendMethod.MessagesSend.GetAttachments` | src/main/java/api/longpoll/bots/methods/messages/MessagesSend.java:295-297 | returns the current `attachments` and changes nothing |
| `MessagesSendMethod.MessagesSend.SetAttachments` | src/main/java/api/longpoll/bots/methods/messages/MessagesSend.java:299-302 | `attachments` becomes the argument, every other field is unchanged, and the same object is returned |
| `MessagesSendMethod.MessagesSend.GetReplyTo` | src/main/java/api/longpoll/bots/methods/messages/MessagesSend.java:304-306 | returns the current `replyTo` and changes nothing |
| `MessagesSendMethod.MessagesSend.SetReplyTo` | src/main/java/api/longpoll/bots/methods/messages/MessagesSend.java:308-311 | `replyTo` becomes the argument, every other field is unchanged, and the same object is returned |
| `MessagesSendMethod.MessagesSend.GetForwardMessages` | src/main/java/api/longpoll/bots/methods/messages/MessagesSend.java:313-315 | returns the current `forwardMessages` and changes nothing |
| `MessagesSendMethod.MessagesSend.SetForwardMessages` | src/main/java/api/longpoll/bots/methods/messages/MessagesSend.java:317-320 | `forwardMessages` becomes the argument, every other field is unchanged, and the same object is returned |
| `MessagesSendMethod.MessagesSend.GetStickerId` | src/main/java/api/longpoll/bots/methods/messages/MessagesSend.java:322-324 | returns the current `stickerId` and changes nothing |
| `MessagesSendMethod.MessagesSend.SetStickerId` | src/main/java/api/longpoll/bots/methods/messages/MessagesSend.java:326-329 | `stickerId` becomes the argument, every other field is unchanged, and the same object is returned |
| `MessagesSendMethod.MessagesSend.GetDontParseLinks` | src/main/java/api/longpoll/bots/methods/messages/MessagesSend.java:331-333 | returns the current `dontParseLinks` and changes nothing |
| `MessagesSendMethod.MessagesSend.SetDontParseLinks` | src/main/java/api/longpoll/bots/methods/messages/MessagesSend.java:335-338 | `dontParseLinks` becomes the argument, every other field is unchanged, and the same object is returned |
| `MessagesSendMethod.MessagesSend.GetDisableMentions` | src/main/java/api/longpoll/bots/methods/messages/MessagesSend.java:340-342 | returns the current `disableMentions` and changes nothing |
| `MessagesSendMethod.MessagesSend.SetDisableMentions` | src/main/java/api/longpoll/bots/methods/messages/MessagesSend.java:344-347 | `disableMentions` becomes the argument, every other field is unchanged, and the same object is returned |
| `GroupsGetMemberResponse.DecodeIntegers` | src/main/java/api/longpoll/bots/adapters/deserializers/GroupsGetMemberResponseDeserializer.java:30-33 | an integer-list decode succeeds exactly when every element is an int number, and then yields those numbers in order |
| `GroupsGetMemberResponse.DecodeItems` | src/main/java/api/longpoll/bots/adapters/deserializers/GroupsGetMemberResponseDeserializer.java:30-35 | an item-list decode succeeds exactly when every element is an object, and then yields one item per element in order |
| `GroupsGetMemberResponse.ChooseShape` | src/main/java/api/longpoll/bots/adapters/deserializers/GroupsGetMemberResponseDeserializer.java:32-34 | the item-list type is chosen exactly when the array is non-empty and its first element is an object, an array or a JSON null; an empty array or a first number, string or boolean gives the integer list |
| `GroupsGetMemberResponse.DecodeMembers` | src/main/java/api/longpoll/bots/adapters/deserializers/GroupsGetMemberResponseDeserializer.java:30-35 | decoding into the chosen list type succeeds exactly when every element fits that type (int numbers, or objects), then yields a list of that type holding every element in order; otherwise it fails with the error of that type |
| `GroupsGetMemberResponse.ShapeDependsOnFirstOnly` | src/main/java/api/longpoll/bots/adapters/deserializers/GroupsGetMemberResponseDeserializer.java:32 | the choice of list type looks only at emptiness and the first element |
| `GroupsGetMemberResponse.Deserialize` | src/main/java/api/longpoll/bots/adapters/deserializers/GroupsGetMemberResponseDeserializer.java:24-40 | without response, response.items (an array) and response.count (an int) the decode fails; on success the count is response.count unchanged, the list has one entry per element, and it is an integer list exactly when the array is empty or starts with a JSON primitive; with a well-formed envelope the decode succeeds exactly when every element fits the chosen type, and then the ids or items are the elements themselves, in order; an element error arises exactly when the envelope is well formed |
| `GroupsGetMemberResponse.ListTypeIgnoresLaterElements` | src/main/java/api/longpoll/bots/adapters/deserializers/GroupsGetMemberResponseDeserializer.java:32-34 | responses that agree on the first element (or are both empty) decode to the same kind of list |
| `GroupsGetMemberResponse.SerializeRoundTrip` | src/main/java/api/longpoll/bots/adapters/deserializers/GroupsGetMemberResponseDeserializer.java:28-39 | decoding the JSON of a body gives the body back, except that an empty item list comes back as an empty integer list |
| `GroupsGetMemberResponse.CountNotCheckedAgainstItems` | src/main/java/api/longpoll/bots/adapters/deserializers/GroupsGetMemberResponseDeserializer.java:29 | any count is accepted with any items; it is not compared with the number of items |
| `BotsConfig.LoadProperties` | src/main/java/api/longpoll/bots/config/VkBotsConfig.java:271 | the bot-method table is requested from the given factory under the given path |
| `BotsConfig.VkBotsConfig.constructor` | src/main/java/api/longpoll/bots/config/VkBotsConfig.java:53-54 | a new configuration has every field unset |
| `BotsConfig.VkBotsConfig.GetBoolIntConverter` | src/main/java/api/longpoll/bots/config/VkBotsConfig.java:60-65 | returns the stored `boolIntConverter` unchanged when it is non-null; when null, installs and returns a new BoolIntConverter (a fresh object of that kind); writes no other field |
| `BotsConfig.VkBotsConfig.SetBoolIntConverter` | src/main/java/api/longpoll/bots/config/VkBotsConfig.java:67-69 | `boolIntConverter` becomes the argument (null included); nothing else changes |
| `BotsConfig.VkBotsConfig.GetListConverter` | src/main/java/api/longpoll/bots/config/VkBotsConfig.java:71-76 | returns the stored `listConverter` unchanged when it is non-null; when null, installs and returns a new ListConverter (a fresh object of that kind); writes no other field |
| `BotsConfig.VkBotsConfig.SetListConverter` | src/main/java/api/longpoll/bots/config/VkBotsConfig.java:78-80 | `listConverter` becomes the argument (null included); nothing else changes |
| `BotsConfig.VkBotsConfig.GetVkAttachmentConverter` | src/main/java/api/longpoll/bots/config/VkBotsConfig.java:82-87 | returns the stored `vkAttachmentConverter` unchanged when it is non-null; when null, installs and returns a new VkAttachmentConverter (a fresh object of that kind); writes no other field |
| `BotsConfig.VkBotsConfig.SetVkAttachmentConverter` | src/main/java/api/longpoll/bots/config/VkBotsConfig.java:89-91 | `vkAttachmentConverter` becomes the argument (null included); nothing else changes |
| `BotsConfig.VkBotsConfig.GetVkAttachmentsListConverterConverter` | src/main/java/api/longpoll/bots/config/VkBotsConfig.java:93-98 | returns the stored `vkAttachmentsListConverterConverter` unchanged when it is non-null; when null, installs and returns a new VkAttachmentsListConverter (a fresh object of that kind); writes no other field |
| `BotsConfig.VkBotsConfig.SetVkAttachmentsListConverterConverter` | src/main/java/api/longpoll/bots/config/VkBotsConfig.java:100-102 | `vkAttachmentsListConverterConverter` becomes the argument (null included); nothing else changes |
| `BotsConfig.VkBotsConfig.GetGson` | src/main/java/api/longpoll/bots/config/VkBotsConfig.java:104-109 | returns the stored `gson` unchanged when it is non-null; when null, installs and returns a new Gson (a fresh object of that kind); writes no other field |
| `BotsConfig.VkBotsConfig.SetGson` | src/main/java/api/longpoll/bots/config/VkBotsConfig.java:111-113 | `gson` becomes the argument (null included); nothing else changes |
| `BotsConfig.VkBotsConfig.GetJsonConverterFactory` | src/main/java/api/longpoll/bots/config/VkBotsConfig.java:115-120 | returns the stored `jsonConverterFactory` unchanged when it is non-null; when null, installs and returns the `GsonConverter::new` constructor reference (an object of that kind); writes no other field |
| `BotsConfig.VkBotsConfig.SetJsonConverterFactory` | src/main/java/api/longpoll/bots/config/VkBotsConfig.java:122-124 | `jsonConverterFactory` becomes the argument (null included); nothing else changes |
| `BotsConfig.VkBotsConfig.GetVkResponseValidator` | src/main/java/api/longpoll/bots/config/VkBotsConfig.java:126-131 | returns the stored `vkResponseValidator` unchanged when it is non-null; when null, installs and returns a new VkResponseValidator (a fresh object of that kind); writes no other field |
| `BotsConfig.VkBotsConfig.SetVkResponseValidator` | src/main/java/api/longpoll/bots/config/VkBotsConfig.java:133-135 | `vkResponseValidator` becomes the argument (null included); nothing else changes |
| `BotsConfig.VkBotsConfig.GetHttpClient` | src/main/java/api/longpoll/bots/config/VkBotsConfig.java:137-142 | returns the stored `httpClient` unchanged when it is non-null; when null, installs and returns a new JsoupHttpClient (a fresh object of that kind); writes no other field |
| `BotsConfig.VkBotsConfig.SetHttpClient` | src/main/java/api/longpoll/bots/config/VkBotsConfig.java:144-146 | `httpClient` becomes the argument (null included); nothing else changes |
| `BotsConfig.VkBotsConfig.GetAsyncCaller` | src/main/java/api/longpoll/bots/config/VkBotsConfig.java:148-153 | returns the stored `asyncCaller` unchanged when it is non-null; when null, installs and returns a new DefaultAsyncCaller (a fresh object of that kind); writes no other field |
| `BotsConfig.VkBotsConfig.SetAsyncCaller` | src/main/java/api/longpoll/bots/config/VkBotsConfig.java:155-157 | `asyncCaller` becomes the argument (null included); nothing else changes |
| `BotsConfig.VkBotsConfig.GetApiVersion` | src/main/java/api/longpoll/bots/config/VkBotsConfig.java:159-164 | returns the stored version when one is set; otherwise installs and returns "5.131"; writes only apiVersion |
| `BotsConfig.VkBotsConfig.SetApiVersion` | src/main/java/api/longpoll/bots/config/VkBotsConfig.java:166-168 | apiVersion becomes the argument (null included); nothing else changes |
| `BotsConfig.VkBotsConfig.GetPhotosGetMessagesUploadFactory` | src/main/java/api/longpoll/bots/config/VkBotsConfig.java:170-175 | returns the stored `photosGetMessagesUploadFactory` unchanged when it is non-null; when null, installs and returns the photos `GetMessagesUploadServer::new` constructor reference (an object of that kind); writes no other field |
| `BotsConfig.VkBotsConfig.SetPhotosGetMessagesUploadFactory` | src/main/java/api/longpoll/bots/config/VkBotsConfig.java:177-179 | `photosGetMessagesUploadFactory` becomes the argument (null included); nothing else changes |
| `BotsConfig.VkBotsConfig.GetUploadPhoto` | src/main/java/api/longpoll/bots/config/VkBotsConfig.java:181-186 | returns the stored `uploadPhoto` unchanged when it is non-null; when null, installs and returns a new UploadPhoto (a fresh object of that kind); writes no other field |
| `BotsConfig.VkBotsConfig.SetUploadPhoto` | src/main/java/api/longpoll/bots/config/VkBotsConfig.java:188-190 | `uploadPhoto` becomes the argument (null included); nothing else changes |
| `BotsConfig.VkBotsConfig.GetSaveMessagePhotoFactory` | src/main/java/api/longpoll/bots/config/VkBotsConfig.java:192-197 | returns the stored `saveMessagePhotoFactory` unchanged when it is non-null; when null, installs and returns the `SaveMessagesPhoto::new` constructor reference (an object of that kind); writes no other field |
| `BotsConfig.VkBotsConfig.SetSaveMessagePhotoFactory` | src/main/java/api/longpoll/bots/config/VkBotsConfig.java:199-201 | `saveMessagePhotoFactory` becomes the argument (null included); nothing else changes |
| `BotsConfig.VkBotsConfig.GetDocsGetMessagesUploadServerFactory` | src/main/java/api/longpoll/bots/config/VkBotsConfig.java:203-208 | returns the stored `docsGetMessagesUploadServerFactory` unchanged when it is non-null; when null, installs and returns the docs `GetMessagesUploadServer::new` constructor reference (an object of that kind); writes no other field |
| `BotsConfig.VkBotsConfig.SetDocsGetMessagesUploadServerFactory` | src/main/java/api/longpoll/bots/config/VkBotsConfig.java:210-212 | `docsGetMessagesUploadServerFactory` becomes the argument (null included); nothing else changes |
| `BotsConfig.VkBotsConfig.GetUploadDoc` | src/main/java/api/longpoll/bots/config/VkBotsConfig.java:214-219 | returns the stored `uploadDoc` unchanged when it is non-null; when null, installs and returns a new UploadDoc (a fresh object of that kind); writes no other field |
| `BotsConfig.VkBotsConfig.SetUploadDoc` | src/main/java/api/longpoll/bots/config/VkBotsConfig.java:221-223 | `uploadDoc` becomes the argument (null included); nothing else changes |
| `BotsConfig.VkBotsConfig.GetDocsSaveFactory` | src/main/java/api/longpoll/bots/config/VkBotsConfig.java:225-230 | returns the stored `docsSaveFactory` unchanged when it is non-null; when null, installs and returns the `Save::new` constructor reference (an object of that kind); writes no other field |
| `BotsConfig.VkBotsConfig.SetDocsSaveFactory` | src/main/java/api/longpoll/bots/config/VkBotsConfig.java:232-234 | `docsSaveFactory` becomes the argument (null included); nothing else changes |
| `BotsConfig.VkBotsConfig.GetGetUpdates` | src/main/java/api/longpoll/bots/config/VkBotsConfig.java:236-241 | returns the stored `getUpdates` unchanged when it is non-null; when null, installs and returns a new GetUpdates (a fresh object of that kind); writes no other field |
| `BotsConfig.VkBotsConfig.SetGetUpdates` | src/main/java/api/longpoll/bots/config/VkBotsConfig.java:243-245 | `getUpdates` becomes the argument (null included); nothing else changes |
| `BotsConfig.VkBotsConfig.GetGetLongPollServerFactory` | src/main/java/api/longpoll/bots/config/VkBotsConfig.java:247-252 | returns the stored `getLongPollServerFactory` unchanged when it is non-null; when null, installs and returns the `GetLongPollServer::new` constructor reference (an object of that kind); writes no other field |
| `BotsConfig.VkBotsConfig.SetGetLongPollServerFactory` | src/main/java/api/longpoll/bots/config/VkBotsConfig.java:254-256 | `getLongPollServerFactory` becomes the argument (null included); nothing else changes |
| `BotsConfig.VkBotsConfig.GetBotMethodsFactory` | src/main/java/api/longpoll/bots/config/VkBotsConfig.java:258-263 | returns the stored `botMethodsFactory` unchanged when it is non-null; when null, installs and returns a new PropertiesFactory (a fresh object of that kind); writes no other field |
| `BotsConfig.VkBotsConfig.SetBotMethodsFactory` | src/main/java/api/longpoll/bots/config/VkBotsConfig.java:265-267 | `botMethodsFactory` becomes the argument (null included); nothing else changes |
| `BotsConfig.VkBotsConfig.GetBotMethods` | src/main/java/api/longpoll/bots/config/VkBotsConfig.java:269-274 | returns the stored table when set; otherwise loads it from "/vk/bot_methods.properties" through the bot-methods factory, installing a fresh PropertiesFactory first if none is set; writes only those two fields |
| `BotsConfig.VkBotsConfig.SetBotMethods` | src/main/java/api/longpoll/bots/config/VkBotsConfig.java:276-278 | botMethods becomes the argument; nothing else changes |
| `BotsConfig.ConfigHolder.constructor` | src/main/java/api/longpoll/bots/config/VkBotsConfig.java:31 | class initialisation creates one fresh, unconfigured instance |
| `BotsConfig.ConfigHolder.GetInstance` | src/main/java/api/longpoll/bots/config/VkBotsConfig.java:56-58 | every call returns that same instance |
| `BotsConfig.FirstApiVersion` | src/main/java/api/longpoll/bots/config/VkBotsConfig.java:159-164 | on the shared instance before any setter, the API version reads as "5.131" |
| `BotsConfig.ApiVersionAfterSet` | src/main/java/api/longpoll/bots/config/VkBotsConfig.java:159-168 | after setting a non-null version, reading it returns that version |
| `BotsConfig.HttpClientReadTwice` | src/main/java/api/longpoll/bots/config/VkBotsConfig.java:137-142 | two reads return the same object, which is a fresh JsoupHttpClient when none was set |
| `BotsConfig.ReadInstalledHttpClient` | src/main/java/api/longpoll/bots/config/VkBotsConfig.java:137-142 | reading a field that is already set returns it and changes no field |
| `BotsConfig.ResetHttpClient` | src/main/java/api/longpoll/bots/config/VkBotsConfig.java:137-146 | setting the field to null makes the next read install a fresh default, not the earlier object |
| `MarkAsAnsweredMethod.AnsweredCode` | src/main/java/api/longpoll/bots/methods/impl/messages/MarkAsAnsweredConversation.java:32 | the flag is sent as 1 for true and 0 for false: always one of the two, and 1 exactly when true |
| `MarkAsAnsweredMethod.Uri` | src/main/java/api/longpoll/bots/methods/impl/messages/MarkAsAnsweredConversation.java:18-20 | the URI is the bot-method table's entry for "messages.markAsAnsweredConversation", null when it has none |
| `MarkAsAnsweredMethod.MarkAsAnsweredConversation.constructor` | src/main/java/api/longpoll/bots/methods/impl/messages/MarkAsAnsweredConversation.java:13-15 | a new request keeps its access token and has no parameters |
| `MarkAsAnsweredMethod.MarkAsAnsweredConversation.AddParam` | src/main/java/api/longpoll/bots/methods/impl/messages/MarkAsAnsweredConversation.java:40-42 | appends (key, value) at the end of the parameters and returns the same object |
| `MarkAsAnsweredMethod.MarkAsAnsweredConversation.SetPeerId` | src/main/java/api/longpoll/bots/methods/impl/messages/MarkAsAnsweredConversation.java:27-29 | appends ("peer_id", peerId) and returns the same object |
| `MarkAsAnsweredMethod.MarkAsAnsweredConversation.SetAnswered` | src/main/java/api/longpoll/bots/methods/impl/messages/MarkAsAnsweredConversation.java:31-33 | appends ("answered", 1) for true and ("answered", 0) for false, so the parameter is present either way; returns the same object |
| `MarkAsAnsweredMethod.MarkAsAnsweredConversation.SetGroupId` | src/main/java/api/longpoll/bots/methods/impl/messages/MarkAsAnsweredConversation.java:35-37 | appends ("group_id", groupId) and returns the same object |
| `MarkAsAnsweredMethod.MarkAnswered` | src/main/java/api/longpoll/bots/methods/impl/messages/MarkAsAnsweredConversation.java:27-42 | a chain of the three setters on a new request leaves exactly peer_id, answered, group_id in call order on that one object |

## Left out

- `attachPhoto(File)` and `attachDoc(File)`: they upload a file through three remote calls before attaching; network and file I/O.
- `getApi` and `getConverter` of `MessagesSend`, and `getResponseClass` of `MarkAsAnsweredConversation`: they return an endpoint name from `VkApi` and type tokens; `VkApi` and the converter classes are not part of this model.
- What the base classes do with a `keyVal(key, value[, true])` call (dropping nulls, the meaning of the `true` flag, joining lists, repeated keys) is not visible in these files; `KeyVals` records each call as written (key, value, flag) and gives it no further meaning.
- `Float` latitude and longitude are kept as raw 32-bit patterns; no floating-point behaviour is modelled.
- `System.currentTimeMillis()` is a constructor parameter of `MessagesSend`.
- `MessagesSendMethod.MessagesSend.constructor`: the Java constructor's `LongPollBot bot` argument is dropped; it only reaches the base class and the `File` variants of `attachPhoto`/`attachDoc`, both outside this model.
- Aliasing of Java lists: `setAttachments(list)` followed by `attach` changes the caller's list in Java, and getters hand out the live list; the model stores list values (`seq`), so it does not capture that sharing.
- Null receivers and null arguments that make Java throw (`attachPhoto(null)`): datatype arguments are never null here.
- `GroupsGetMemberResponse.DecodeIntegers` and `GroupsGetMemberResponse.DecodeItems`: Gson's element adapters are not part of this model; the decoder accepts only int-range numbers for ids and only objects for items, whereas Gson also reads numeric strings and null elements, and wraps out-of-range numbers.
- `GroupsGetMemberResponse.Deserialize`: `count` must be an int-range number; Gson's lenient `getAsInt` (numeric strings, one-element arrays) is not modelled. JSON numbers are integers only, and object members are a map (member order is not kept).
- `GetMembers.ResponseBody.Item` is not part of this model: a member object is kept as the JSON object it came from.
- The default collaborators' own behaviour (converters, HTTP client, async caller, method factories) and the contents of the properties file: opaque `Component` / `Properties` objects.
- `BotsConfig.VkBotsConfig.GetJsonConverterFactory` and the other constructor-reference getters: the model does not promise a fresh object, because the JVM may reuse the object of a constructor reference.
- The bot-method table appears twice, as two separate abstractions: `BotsConfig.Properties` (what `getBotMethods` loads, recorded only by factory and path) and the `map` that `MarkAsAnsweredMethod.Uri` reads. In the library `getUri` looks its key up in the table `getBotMethods` loads; the model does not connect the two, because the table's contents come from a resource file outside this model.
- The `VkMethod` base class of `MarkAsAnsweredConversation` is not part of this model: a new request is taken to start with no parameters, `addParam` to append, and `property` to look the key up in the bot-method table, given as a map.
- Concurrency: the shared configuration is mutated without synchronisation; the model is sequential.
- `MessagesSendMethod.MessagesSend.Attach`: when the caller installed an unmodifiable list through `setAttachments`, `attachments.add` throws `UnsupportedOperationException` in Java; the model's list is a value, so `Attach` always appends.
- `BotsConfig.ConfigHolder.GetInstance`: in Java the constructor of `VkBotsConfig` is private and `INSTANCE` is static, so there is exactly one configuration; Dafny has no private constructors or static state, so any code may create further `VkBotsConfig` or `ConfigHolder` objects, and `GetInstance` returns the same instance only per holder.
- `MarkAsAnsweredMethod.MarkAsAnsweredConversation.AddParam`: Java's `addParam(String, Object)` accepts any object, null included; the model narrows the value to an `int` (`ParamValue`), the only type the three setters pass.
- `BotsConfig.LoadProperties`: `PropertiesFactory.get` is not part of this model; it is taken to always return a table, whereas in Java it might return null or throw, in which case `getBotMethods` would return null and try loading again on the next read.
