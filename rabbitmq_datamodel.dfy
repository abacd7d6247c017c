/** The RabbitMQQueue portable resource as stored by the messaging resource provider
    (pkg/messagingrp/datamodel/rabbitmq.go): the record, its deployment-output update and
    its getters. */
module RabbitMQDatamodel {
  import opened Wrappers
  import opened Recipes
  import opened Values

  /** The resource type both RabbitMQQueue and RabbitMQSecrets report
      (linkrp.N_RabbitMQQueuesResourceType). */
  const RABBITMQ_QUEUES_RESOURCE_TYPE := "Applications.Messaging/rabbitMQQueues"

  /** v1.BaseResource: the tracked ARM resource envelope. */
  datatype BaseResource = BaseResource(
    id: string,
    name: string,
    resourceType: string,
    location: string,
    tags: map<string, string>)

  /** rpv1.ResourceStatus */
  datatype ResourceStatus = ResourceStatus(outputResources: seq<OutputResource>)

  /** rpv1.BasicResourceProperties: environment, application and deployment status. */
  datatype BasicResourceProperties = BasicResourceProperties(
    environment: string,
    application: string,
    status: ResourceStatus)

  /** linkrp.LinkRecipe */
  datatype LinkRecipe = LinkRecipe(name: string, parameters: map<string, Value>)

  /** RabbitMQSecrets */
  datatype RabbitMQSecrets = RabbitMQSecrets(connectionString: string)
  {
    /** Every RabbitMQSecrets value reports the RabbitMQ queues resource type. */
    function ResourceTypeName(): (t: string)
      ensures t == RABBITMQ_QUEUES_RESOURCE_TYPE
    {
      RABBITMQ_QUEUES_RESOURCE_TYPE
    }
  }

  /** RabbitMQQueueProperties; `mode` is the linkrpdm.LinkMode string. */
  datatype RabbitMQQueueProperties = RabbitMQQueueProperties(
    basic: BasicResourceProperties,
    queue: string,
    recipe: LinkRecipe,
    secrets: RabbitMQSecrets,
    mode: string)

  /** linkrpdm.LinkMetadata: values computed for the resource and references to its secrets. */
  datatype LinkMetadata = LinkMetadata(
    computedValues: map<string, Value>,
    secretValues: map<string, string>)

  /** rpv1.DeploymentOutput: what a deployment of the resource produced. */
  datatype DeploymentOutput = DeploymentOutput(
    deployedOutputResources: seq<OutputResource>,
    computedValues: map<string, Value>,
    secretValues: map<string, string>)

  /** The RabbitMQQueue record. The source hands it around by pointer and updates it in place. */
  class RabbitMQQueue {
    var base: BaseResource
    var properties: RabbitMQQueueProperties
    var linkMetadata: LinkMetadata

    constructor (base: BaseResource, properties: RabbitMQQueueProperties, linkMetadata: LinkMetadata)
      ensures this.base == base && this.properties == properties && this.linkMetadata == linkMetadata
    {
      this.base := base;
      this.properties := properties;
      this.linkMetadata := linkMetadata;
    }

    /** The output resources recorded in the resource's status. */
    function OutputResources(): (r: seq<OutputResource>)
      reads this
      ensures r == properties.basic.status.outputResources
    {
      properties.basic.status.outputResources
    }

    /** The application-level metadata embedded in the properties. */
    function ResourceMetadata(): (m: BasicResourceProperties)
      reads this
      ensures m == properties.basic
      ensures m.status.outputResources == OutputResources()
    {
      properties.basic
    }

    /** Every RabbitMQQueue reports the RabbitMQ queues resource type, the same one its
        secrets report. */
    function ResourceTypeName(): (t: string)
      ensures t == RABBITMQ_QUEUES_RESOURCE_TYPE
      ensures forall s: RabbitMQSecrets :: t == s.ResourceTypeName()
    {
      RABBITMQ_QUEUES_RESOURCE_TYPE
    }

    /** Records the deployed output resources in the status and touches nothing else;
        it never fails. */
    method ApplyDeploymentOutput(output: DeploymentOutput) returns (err: Option<string>)
      modifies this
      ensures err.None?
      ensures OutputResources() == output.deployedOutputResources
      ensures properties == old(properties).(basic := old(properties).basic.(
                status := old(properties).basic.status.(outputResources := output.deployedOutputResources)))
      ensures base == old(base) && linkMetadata == old(linkMetadata)
    {
      properties := properties.(basic := properties.basic.(
        status := properties.basic.status.(outputResources := output.deployedOutputResources)));
      return None;
    }
  }
}
