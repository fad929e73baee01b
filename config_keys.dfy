/** The configuration keys the provider reads and writes. Their string
    values live in src/configKeys.ts, which is not part of this model: the
    values below are stand-ins named after the constants, and the model only
    relies on the keys being distinct. */
module ConfigKeys {
  const AccessKeyId := "ACCESS_KEY_ID"
  const SecretAccessKey := "SECRET_ACCESS_KEY"
  const Region := "REGION"
  const ParentMachineSize := "PARENT_MACHINE_SIZE"
  const BuildMachineSize := "BUILD_MACHINE_SIZE"
  const ChildMachineSize := "CHILD_MACHINE_SIZE"
  const RepoUrl := "REPO_URL"
  const VpcId := "VPC_ID"
  const SubnetId := "SUBNET_ID"
  const SecurityGroupParentId := "SECURITY_GROUP_PARENT_ID"
  const SecurityGroupBuildId := "SECURITY_GROUP_BUILD_ID"
  const SecurityGroupChildId := "SECURITY_GROUP_CHILD_ID"
}
