/**
 * The process-wide configuration of the bot library: collaborators
 * (converters, HTTP client, method factories, ...) and the API version,
 * each installed with a default the first time it is read while unset.
 */
module BotsConfig {
  import opened JavaLang

  const DEFAULT_API_VERSION: string := "5.131"
  const BOT_METHODS_PATH: string := "/vk/bot_methods.properties"

  /**
   * What a collaborator object is: one of the library's default
   * implementations, or one the application supplied (told apart by a tag).
   * The ...Constructor kinds are constructor references (`X::new`).
   */
  datatype Kind =
    | BoolIntConverter
    | ListConverter
    | VkAttachmentConverter
    | VkAttachmentsListConverter
    | Gson
    | GsonConverterConstructor
    | VkResponseValidator
    | JsoupHttpClient
    | DefaultAsyncCaller
    | PhotosGetMessagesUploadServerConstructor
    | UploadPhoto
    | SaveMessagesPhotoConstructor
    | DocsGetMessagesUploadServerConstructor
    | UploadDoc
    | DocsSaveConstructor
    | GetUpdates
    | GetLongPollServerConstructor
    | PropertiesFactory
    | Custom(tag: nat)

  /** An opaque collaborator object; only its kind and its identity matter here. */
  class Component {
    const kind: Kind

    constructor (kind: Kind)
      ensures this.kind == kind
    {
      this.kind := kind;
    }
  }

  /** A loaded java.util.Properties: which factory loaded it and from which path. */
  class Properties {
    const loadedBy: Component
    const path: string

    constructor (loadedBy: Component, path: string)
      ensures this.loadedBy == loadedBy && this.path == path
    {
      this.loadedBy := loadedBy;
      this.path := path;
    }
  }

  /** PropertiesFactory.get(path): reads a classpath resource through the given factory. */
  method LoadProperties(factory: Component, path: string) returns (p: Properties)
    ensures p.loadedBy == factory && p.path == path
  {
    p := new Properties(factory, path);
  }

  class VkBotsConfig {
    var boolIntConverter: Component?
    var listConverter: Component?
    var vkAttachmentConverter: Component?
    var vkAttachmentsListConverterConverter: Component?
    var gson: Component?
    var jsonConverterFactory: Component?
    var vkResponseValidator: Component?
    var httpClient: Component?
    var asyncCaller: Component?
    var photosGetMessagesUploadFactory: Component?
    var uploadPhoto: Component?
    var saveMessagePhotoFactory: Component?
    var docsGetMessagesUploadServerFactory: Component?
    var uploadDoc: Component?
    var docsSaveFactory: Component?
    var getUpdates: Component?
    var getLongPollServerFactory: Component?
    var botMethodsFactory: Component?
    var apiVersion: Option<string>
    var botMethods: Properties?

    /** Nothing set yet: every field null. */
    predicate Unconfigured()
      reads this
    {
      && boolIntConverter == null
      && listConverter == null
      && vkAttachmentConverter == null
      && vkAttachmentsListConverterConverter == null
      && gson == null
      && jsonConverterFactory == null
      && vkResponseValidator == null
      && httpClient == null
      && asyncCaller == null
      && photosGetMessagesUploadFactory == null
      && uploadPhoto == null
      && saveMessagePhotoFactory == null
      && docsGetMessagesUploadServerFactory == null
      && uploadDoc == null
      && docsSaveFactory == null
      && getUpdates == null
      && getLongPollServerFactory == null
      && botMethodsFactory == null
      && apiVersion.None?
      && botMethods == null
    }

    constructor ()
      ensures Unconfigured()
    {
      boolIntConverter := null;
      listConverter := null;
      vkAttachmentConverter := null;
      vkAttachmentsListConverterConverter := null;
      gson := null;
      jsonConverterFactory := null;
      vkResponseValidator := null;
      httpClient := null;
      asyncCaller := null;
      photosGetMessagesUploadFactory := null;
      uploadPhoto := null;
      saveMessagePhotoFactory := null;
      docsGetMessagesUploadServerFactory := null;
      uploadDoc := null;
      docsSaveFactory := null;
      getUpdates := null;
      getLongPollServerFactory := null;
      botMethodsFactory := null;
      apiVersion := None;
      botMethods := null;
    }

    method GetBoolIntConverter() returns (r: Component)
      modifies this`boolIntConverter
      ensures old(boolIntConverter) != null ==> r == old(boolIntConverter)
      ensures old(boolIntConverter) == null ==> fresh(r) && r.kind == BoolIntConverter
      ensures boolIntConverter == r
    {
      if boolIntConverter == null {
        boolIntConverter := new Component(BoolIntConverter);
      }
      r := boolIntConverter;
    }

    method SetBoolIntConverter(v: Component?)
      modifies this`boolIntConverter
      ensures boolIntConverter == v
    {
      boolIntConverter := v;
    }

    method GetListConverter() returns (r: Component)
      modifies this`listConverter
      ensures old(listConverter) != null ==> r == old(listConverter)
      ensures old(listConverter) == null ==> fresh(r) && r.kind == ListConverter
      ensures listConverter == r
    {
      if listConverter == null {
        listConverter := new Component(ListConverter);
      }
      r := listConverter;
    }

    method SetListConverter(v: Component?)
      modifies this`listConverter
      ensures listConverter == v
    {
      listConverter := v;
    }

    method GetVkAttachmentConverter() returns (r: Component)
      modifies this`vkAttachmentConverter
      ensures old(vkAttachmentConverter) != null ==> r == old(vkAttachmentConverter)
      ensures old(vkAttachmentConverter) == null ==> fresh(r) && r.kind == VkAttachmentConverter
      ensures vkAttachmentConverter == r
    {
      if vkAttachmentConverter == null {
        vkAttachmentConverter := new Component(VkAttachmentConverter);
      }
      r := vkAttachmentConverter;
    }

    method SetVkAttachmentConverter(v: Component?)
      modifies this`vkAttachmentConverter
      ensures vkAttachmentConverter == v
    {
      vkAttachmentConverter := v;
    }

    method GetVkAttachmentsListConverterConverter() returns (r: Component)
      modifies this`vkAttachmentsListConverterConverter
      ensures old(vkAttachmentsListConverterConverter) != null ==> r == old(vkAttachmentsListConverterConverter)
      ensures old(vkAttachmentsListConverterConverter) == null ==> fresh(r) && r.kind == VkAttachmentsListConverter
      ensures vkAttachmentsListConverterConverter == r
    {
      if vkAttachmentsListConverterConverter == null {
        vkAttachmentsListConverterConverter := new Component(VkAttachmentsListConverter);
      }
      r := vkAttachmentsListConverterConverter;
    }

    method SetVkAttachmentsListConverterConverter(v: Component?)
      modifies this`vkAttachmentsListConverterConverter
      ensures vkAttachmentsListConverterConverter == v
    {
      vkAttachmentsListConverterConverter := v;
    }

    method GetGson() returns (r: Component)
      modifies this`gson
      ensures old(gson) != null ==> r == old(gson)
      ensures old(gson) == null ==> fresh(r) && r.kind == Gson
      ensures gson == r
    {
      if gson == null {
        gson := new Component(Gson);
      }
      r := gson;
    }

    method SetGson(v: Component?)
      modifies this`gson
      ensures gson == v
    {
      gson := v;
    }

    method GetJsonConverterFactory() returns (r: Component)
      modifies this`jsonConverterFactory
      ensures old(jsonConverterFactory) != null ==> r == old(jsonConverterFactory)
      ensures old(jsonConverterFactory) == null ==> r.kind == GsonConverterConstructor
      ensures jsonConverterFactory == r
    {
      if jsonConverterFactory == null {
        jsonConverterFactory := new Component(GsonConverterConstructor);
      }
      r := jsonConverterFactory;
    }

    method SetJsonConverterFactory(v: Component?)
      modifies this`jsonConverterFactory
      ensures jsonConverterFactory == v
    {
      jsonConverterFactory := v;
    }

    method GetVkResponseValidator() returns (r: Component)
      modifies this`vkResponseValidator
      ensures old(vkResponseValidator) != null ==> r == old(vkResponseValidator)
      ensures old(vkResponseValidator) == null ==> fresh(r) && r.kind == VkResponseValidator
      ensures vkResponseValidator == r
    {
      if vkResponseValidator == null {
        vkResponseValidator := new Component(VkResponseValidator);
      }
      r := vkResponseValidator;
    }

    method SetVkResponseValidator(v: Component?)
      modifies this`vkResponseValidator
      ensures vkResponseValidator == v
    {
      vkResponseValidator := v;
    }

    method GetHttpClient() returns (r: Component)
      modifies this`httpClient
      ensures old(httpClient) != null ==> r == old(httpClient)
      ensures old(httpClient) == null ==> fresh(r) && r.kind == JsoupHttpClient
      ensures httpClient == r
    {
      if httpClient == null {
        httpClient := new Component(JsoupHttpClient);
      }
      r := httpClient;
    }

    method SetHttpClient(v: Component?)
      modifies this`httpClient
      ensures httpClient == v
    {
      httpClient := v;
    }

    method GetAsyncCaller() returns (r: Component)
      modifies this`asyncCaller
      ensures old(asyncCaller) != null ==> r == old(asyncCaller)
      ensures old(asyncCaller) == null ==> fresh(r) && r.kind == DefaultAsyncCaller
      ensures asyncCaller == r
    {
      if asyncCaller == null {
        asyncCaller := new Component(DefaultAsyncCaller);
      }
      r := asyncCaller;
    }

    method SetAsyncCaller(v: Component?)
      modifies this`asyncCaller
      ensures asyncCaller == v
    {
      asyncCaller := v;
    }

    method GetPhotosGetMessagesUploadFactory() returns (r: Component)
      modifies this`photosGetMessagesUploadFactory
      ensures old(photosGetMessagesUploadFactory) != null ==> r == old(photosGetMessagesUploadFactory)
      ensures old(photosGetMessagesUploadFactory) == null ==> r.kind == PhotosGetMessagesUploadServerConstructor
      ensures photosGetMessagesUploadFactory == r
    {
      if photosGetMessagesUploadFactory == null {
        photosGetMessagesUploadFactory := new Component(PhotosGetMessagesUploadServerConstructor);
      }
      r := photosGetMessagesUploadFactory;
    }

    method SetPhotosGetMessagesUploadFactory(v: Component?)
      modifies this`photosGetMessagesUploadFactory
      ensures photosGetMessagesUploadFactory == v
    {
      photosGetMessagesUploadFactory := v;
    }

    method GetUploadPhoto() returns (r: Component)
      modifies this`uploadPhoto
      ensures old(uploadPhoto) != null ==> r == old(uploadPhoto)
      ensures old(uploadPhoto) == null ==> fresh(r) && r.kind == UploadPhoto
      ensures uploadPhoto == r
    {
      if uploadPhoto == null {
        uploadPhoto := new Component(UploadPhoto);
      }
      r := uploadPhoto;
    }

    method SetUploadPhoto(v: Component?)
      modifies this`uploadPhoto
      ensures uploadPhoto == v
    {
      uploadPhoto := v;
    }

    method GetSaveMessagePhotoFactory() returns (r: Component)
      modifies this`saveMessagePhotoFactory
      ensures old(saveMessagePhotoFactory) != null ==> r == old(saveMessagePhotoFactory)
      ensures old(saveMessagePhotoFactory) == null ==> r.kind == SaveMessagesPhotoConstructor
      ensures saveMessagePhotoFactory == r
    {
      if saveMessagePhotoFactory == null {
        saveMessagePhotoFactory := new Component(SaveMessagesPhotoConstructor);
      }
      r := saveMessagePhotoFactory;
    }

    method SetSaveMessagePhotoFactory(v: Component?)
      modifies this`saveMessagePhotoFactory
      ensures saveMessagePhotoFactory == v
    {
      saveMessagePhotoFactory := v;
    }

    method GetDocsGetMessagesUploadServerFactory() returns (r: Component)
      modifies this`docsGetMessagesUploadServerFactory
      ensures old(docsGetMessagesUploadServerFactory) != null ==> r == old(docsGetMessagesUploadServerFactory)
      ensures old(docsGetMessagesUploadServerFactory) == null ==> r.kind == DocsGetMessagesUploadServerConstructor
      ensures docsGetMessagesUploadServerFactory == r
    {
      if docsGetMessagesUploadServerFactory == null {
        docsGetMessagesUploadServerFactory := new Component(DocsGetMessagesUploadServerConstructor);
      }
      r := docsGetMessagesUploadServerFactory;
    }

    method SetDocsGetMessagesUploadServerFactory(v: Component?)
      modifies this`docsGetMessagesUploadServerFactory
      ensures docsGetMessagesUploadServerFactory == v
    {
      docsGetMessagesUploadServerFactory := v;
    }

    method GetUploadDoc() returns (r: Component)
      modifies this`uploadDoc
      ensures old(uploadDoc) != null ==> r == old(uploadDoc)
      ensures old(uploadDoc) == null ==> fresh(r) && r.kind == UploadDoc
      ensures uploadDoc == r
    {
      if uploadDoc == null {
        uploadDoc := new Component(UploadDoc);
      }
      r := uploadDoc;
    }

    method SetUploadDoc(v: Component?)
      modifies this`uploadDoc
      ensures uploadDoc == v
    {
      uploadDoc := v;
    }

    method GetDocsSaveFactory() returns (r: Component)
      modifies this`docsSaveFactory
      ensures old(docsSaveFactory) != null ==> r == old(docsSaveFactory)
      ensures old(docsSaveFactory) == null ==> r.kind == DocsSaveConstructor
      ensures docsSaveFactory == r
    {
      if docsSaveFactory == null {
        docsSaveFactory := new Component(DocsSaveConstructor);
      }
      r := docsSaveFactory;
    }

    method SetDocsSaveFactory(v: Component?)
      modifies this`docsSaveFactory
      ensures docsSaveFactory == v
    {
      docsSaveFactory := v;
    }

    method GetGetUpdates() returns (r: Component)
      modifies this`getUpdates
      ensures old(getUpdates) != null ==> r == old(getUpdates)
      ensures old(getUpdates) == null ==> fresh(r) && r.kind == GetUpdates
      ensures getUpdates == r
    {
      if getUpdates == null {
        getUpdates := new Component(GetUpdates);
      }
      r := getUpdates;
    }

    method SetGetUpdates(v: Component?)
      modifies this`getUpdates
      ensures getUpdates == v
    {
      getUpdates := v;
    }

    method GetGetLongPollServerFactory() returns (r: Component)
      modifies this`getLongPollServerFactory
      ensures old(getLongPollServerFactory) != null ==> r == old(getLongPollServerFactory)
      ensures old(getLongPollServerFactory) == null ==> r.kind == GetLongPollServerConstructor
      ensures getLongPollServerFactory == r
    {
      if getLongPollServerFactory == null {
        getLongPollServerFactory := new Component(GetLongPollServerConstructor);
      }
      r := getLongPollServerFactory;
    }

    method SetGetLongPollServerFactory(v: Component?)
      modifies this`getLongPollServerFactory
      ensures getLongPollServerFactory == v
    {
      getLongPollServerFactory := v;
    }

    method GetBotMethodsFactory() returns (r: Component)
      modifies this`botMethodsFactory
      ensures old(botMethodsFactory) != null ==> r == old(botMethodsFactory)
      ensures old(botMethodsFactory) == null ==> fresh(r) && r.kind == PropertiesFactory
      ensures botMethodsFactory == r
    {
      if botMethodsFactory == null {
        botMethodsFactory := new Component(PropertiesFactory);
      }
      r := botMethodsFactory;
    }

    method SetBotMethodsFactory(v: Component?)
      modifies this`botMethodsFactory
      ensures botMethodsFactory == v
    {
      botMethodsFactory := v;
    }

    method GetApiVersion() returns (r: string)
      modifies this`apiVersion
      ensures old(apiVersion).Some? ==> r == old(apiVersion).value
      ensures old(apiVersion).None? ==> r == DEFAULT_API_VERSION
      ensures apiVersion == Some(r)
    {
      if apiVersion.None? {
        apiVersion := Some(DEFAULT_API_VERSION);
      }
      r := apiVersion.value;
    }

    method SetApiVersion(v: Option<string>)
      modifies this`apiVersion
      ensures apiVersion == v
    {
      apiVersion := v;
    }

    /**
     * Loads the bot-method table on first read, through the bot-methods
     * factory (itself installed on first use).
     */
    method GetBotMethods() returns (r: Properties)
      modifies this`botMethods, this`botMethodsFactory
      ensures old(botMethods) != null ==> r == old(botMethods) && botMethodsFactory == old(botMethodsFactory)
      ensures old(botMethods) == null ==>
                && r.path == BOT_METHODS_PATH
                && r.loadedBy == botMethodsFactory
                && (old(botMethodsFactory) != null ==> botMethodsFactory == old(botMethodsFactory))
                && (old(botMethodsFactory) == null ==> fresh(botMethodsFactory) && botMethodsFactory.kind == PropertiesFactory)
      ensures botMethods == r
    {
      if botMethods == null {
        var factory := GetBotMethodsFactory();
        botMethods := LoadProperties(factory, BOT_METHODS_PATH);
      }
      r := botMethods;
    }

    method SetBotMethods(v: Properties?)
      modifies this`botMethods
      ensures botMethods == v
    {
      botMethods := v;
    }
  }

  /** The class-initialisation step that creates the single shared instance. */
  class ConfigHolder {
    const instance: VkBotsConfig

    constructor ()
      ensures fresh(instance) && instance.Unconfigured()
    {
      instance := new VkBotsConfig();
    }

    /** getInstance(): every call answers the one instance created at initialisation. */
    method GetInstance() returns (r: VkBotsConfig)
      ensures r == instance
    {
      r := instance;
    }
  }

  /** Before any setter runs, the API version reads as the default. */
  method FirstApiVersion() returns (v: string)
    ensures v == DEFAULT_API_VERSION
  {
    var holder := new ConfigHolder();
    var config := holder.GetInstance();
    v := config.GetApiVersion();
  }

  /** A non-null version set through the setter is what the getter then returns. */
  method ApiVersionAfterSet(config: VkBotsConfig, version: string) returns (v: string)
    modifies config
    ensures v == version && config.apiVersion == Some(version)
  {
    config.SetApiVersion(Some(version));
    v := config.GetApiVersion();
  }

  /**
   * A getter is idempotent: once installed, the value is returned again and
   * the second read leaves every field as it was.
   */
  method HttpClientReadTwice(config: VkBotsConfig) returns (first: Component, second: Component)
    modifies config
    ensures first == second && config.httpClient == first
    ensures old(config.httpClient) == null ==> fresh(first) && first.kind == JsoupHttpClient
  {
    first := config.GetHttpClient();
    label afterFirst:
    second := config.GetHttpClient();
    assert unchanged@afterFirst(config);
  }

  /** Reading a field that is already set changes nothing at all. */
  method ReadInstalledHttpClient(config: VkBotsConfig) returns (r: Component)
    requires config.httpClient != null
    modifies config
    ensures r == config.httpClient && unchanged(config)
  {
    r := config.GetHttpClient();
  }

  /** Setting a field to null makes the next read install a fresh default. */
  method ResetHttpClient(config: VkBotsConfig, custom: Component) returns (r: Component)
    modifies config
    ensures fresh(r) && r != custom && r.kind == JsoupHttpClient
  {
    config.SetHttpClient(custom);
    config.SetHttpClient(null);
    r := config.GetHttpClient();
  }
}
